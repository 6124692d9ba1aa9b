/** The last-modified timestamp that the Work, legacy Version and DataObject
    builders derive from the `dateLastModified` and `timeLastModified`
    attributes of `ebuCoreMain`. */
module Dates {
  import opened Py
  import opened Text

  /** A one-character day gains a leading zero. */
  function PadDay(day: string): (r: string)
    ensures |r| == (if |day| == 1 then 2 else |day|)
  {
    if |day| == 1 then "0" + day else day
  }

  /** A four-character UTC offset (`1:00`) gains a leading zero. */
  function PadOffset(offset: string): (r: string)
    ensures |r| == (if |offset| == 4 then 5 else |offset|)
  {
    if |offset| == 4 then "0" + offset else offset
  }

  /** Padding only ever puts a '0' in front: the given digits end the result. */
  lemma PaddingKeepsDigits(day: string, offset: string)
    ensures PadDay(day)[|PadDay(day)| - |day|..] == day && (|day| == 1 ==> PadDay(day)[0] == '0')
    ensures PadOffset(offset)[|PadOffset(offset)| - |offset|..] == offset && (|offset| == 4 ==> PadOffset(offset)[0] == '0')
  {
  }

  /** The date before any '+' is split on '-', the time is split on '+'; the
      result is `Y-M-D time+offset` with the day and the offset padded. A time
      without '+' or a date with fewer than three '-'-pieces raises `IndexError`. */
  function LastModified(date: string, time: string): (r: Result<string>)
    ensures r.Raised? <==> '+' !in time || |Split(Before(date, '+'), '-')| < 3
    ensures r.Raised? ==> r.error == IndexError
    ensures r.Ok? ==> exists k :: 0 <= k < |r.value| && r.value[k] == ' '
  {
    var clock := Split(time, '+');
    var ymd := Split(Before(date, '+'), '-');
    SplitHasFieldOneIffSeparator(time, '+');
    if |clock| < 2 || |ymd| < 3 then Raised(IndexError)
    else
      var head := ymd[0] + "-" + ymd[1] + "-" + PadDay(ymd[2]);
      var v := head + " " + clock[0] + "+" + PadOffset(clock[1]);
      assert v[|head|] == ' ';
      Ok(v)
  }

  /** The getter as it reads the two attributes of `ebuCoreMain`: an attribute
      that is missing (`None`, as both are when `ebuCoreMain` itself is
      missing) raises `AttributeError` at its `.split`, before anything is
      indexed. */
  function ReadLastModified(date: Option<string>, time: Option<string>): (r: Result<string>)
    ensures r.Raised? <==> date.None? || time.None? || LastModified(date.value, time.value).Raised?
    ensures r.Raised? ==> r.error == (if date.None? || time.None? then AttributeError else IndexError)
    ensures r.Ok? ==> r == LastModified(date.value, time.value)
  {
    if date.None? || time.None? then Raised(AttributeError) else LastModified(date.value, time.value)
  }

  /** `Before(a + b, c) == a` when `a` has no separator and `b` is empty or starts with one. */
  lemma BeforeOfPrefix(a: string, b: string, c: char)
    requires c !in a
    requires b == [] || b[0] == c
    ensures Before(a + b, c) == a
  {
    var s := a + b;
    var f := Before(s, c);
    BeforeIsFirstSegment(s, c);
    assert f == s[..|a|] == a;
  }

  /** For attribute values of the documented shape — `Y-M-D`, optionally
      followed by `+zone`, and `hh:mm:ss+offset` — the getter gives back the
      year, month and time unchanged, with the day and the offset padded. */
  lemma LastModifiedOfWellFormed(y: string, m: string, d: string, zone: string, clock: string, offset: string)
    requires '-' !in y && '-' !in m && '-' !in d
    requires '+' !in y && '+' !in m && '+' !in d
    requires zone == [] || zone[0] == '+'
    requires '+' !in clock && '+' !in offset
    ensures LastModified(y + "-" + m + "-" + d + zone, clock + "+" + offset)
            == Ok(y + "-" + m + "-" + PadDay(d) + " " + clock + "+" + PadOffset(offset))
  {
    var ymd := y + "-" + m + "-" + d;
    assert '+' !in ymd by {
      forall k | 0 <= k < |ymd| ensures ymd[k] != '+' {
        if k < |y| { assert ymd[k] == y[k]; }
        else if k == |y| { }
        else if k < |y| + 1 + |m| { assert ymd[k] == m[k - |y| - 1]; }
        else if k == |y| + 1 + |m| { }
        else { assert ymd[k] == d[k - |y| - 2 - |m|]; }
      }
    }
    BeforeOfPrefix(ymd, zone, '+');
    assert y + "-" + m + "-" + d + zone == ymd + zone;
    assert [y, m, d][1..] == [m, d] && [m, d][1..] == [d];
    assert Join([y, m, d], '-') == y + "-" + Join([m, d], '-');
    assert Join([y, m, d], '-') == ymd;
    SplitJoin([y, m, d], '-');
    assert Join([clock, offset], '+') == clock + "+" + offset;
    SplitJoin([clock, offset], '+');
  }

  /** A two-digit day and a five-character offset are left exactly as given. */
  lemma PaddingOnlyWhereShort(day: string, offset: string)
    requires |day| != 1 && |offset| != 4
    ensures PadDay(day) == day && PadOffset(offset) == offset
  {
  }
}
