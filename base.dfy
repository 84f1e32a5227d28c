/** Shared vocabulary of the model: optional values and results, fixed-width
    integers, timestamps, and the few string operations of the .NET runtime
    that the backend relies on (white-space tests, trimming, splitting). */
module Base {

  datatype Option<+T> = None | Some(value: T)

  datatype Result<+T, +E> = Ok(value: T) | Err(error: E)

  // ---------------------------------------------------------------------
  // Fixed-width integers
  // ---------------------------------------------------------------------

  const TWO_32: int := 0x1_0000_0000
  const INT32_MIN: int := -0x8000_0000
  const INT32_MAX: int := 0x7FFF_FFFF

  /** C/C++ `uint32_t`. */
  type uint32 = x: int | 0 <= x < 0x1_0000_0000

  /** C# `int` and C++ `int` on the targets of this system. */
  type int32 = x: int | -0x8000_0000 <= x <= 0x7FFF_FFFF

  /** `a - b` computed on `uint32_t`: the difference wraps modulo 2^32. */
  function Sub32(a: uint32, b: uint32): (d: uint32)
    ensures a >= b ==> d == a - b
    ensures a < b ==> d == a - b + TWO_32
  {
    (a - b) % TWO_32
  }

  // ---------------------------------------------------------------------
  // Time
  // ---------------------------------------------------------------------

  /** A .NET `DateTimeOffset`: the instant in whole seconds since the Unix
      epoch (UTC) together with the offset, in minutes, that the value was
      written or parsed with. Two values with different offsets may denote
      the same instant. */
  datatype DateTimeOffset = DateTimeOffset(utcSeconds: int, offsetMinutes: int)
  {
    /** The clock reading in the value's own offset (`DateTime` part). */
    function LocalSeconds(): int { utcSeconds + offsetMinutes * 60 }
  }

  const SECONDS_PER_DAY: int := 86400

  /** .NET `DayOfWeek`, in its declaration order (Sunday = 0). */
  datatype DayOfWeek = Sunday | Monday | Tuesday | Wednesday | Thursday | Friday | Saturday

  /** The weekday of a local clock reading; day 0 of the epoch, 1970-01-01,
      was a Thursday. */
  function DayOfWeekOf(localSeconds: int): DayOfWeek
  {
    var k := (localSeconds / SECONDS_PER_DAY + 4) % 7;
    if k == 0 then Sunday else if k == 1 then Monday else if k == 2 then Tuesday
    else if k == 3 then Wednesday else if k == 4 then Thursday else if k == 5 then Friday
    else Saturday
  }

  /** `DateTimeOffset.TimeOfDay`, in seconds. */
  function TimeOfDay(localSeconds: int): (t: int)
    ensures 0 <= t < SECONDS_PER_DAY
  {
    localSeconds % SECONDS_PER_DAY
  }

  /** The numeric value of `System.DayOfWeek`: Sunday is 0, Saturday 6. */
  function DayIndex(d: DayOfWeek): (n: nat)
    ensures n < 7
  {
    match d
    case Sunday => 0
    case Monday => 1
    case Tuesday => 2
    case Wednesday => 3
    case Thursday => 4
    case Friday => 5
    case Saturday => 6
  }

  /** One day later is the next weekday (Saturday is followed by Sunday) at
      the same time of day; seven days later is the same weekday. */
  lemma WeekdayAdvancesDaily(localSeconds: int)
    ensures DayIndex(DayOfWeekOf(localSeconds + SECONDS_PER_DAY)) == (DayIndex(DayOfWeekOf(localSeconds)) + 1) % 7
    ensures DayOfWeekOf(localSeconds + 7 * SECONDS_PER_DAY) == DayOfWeekOf(localSeconds)
    ensures TimeOfDay(localSeconds + SECONDS_PER_DAY) == TimeOfDay(localSeconds)
  {
    var d := localSeconds / SECONDS_PER_DAY;
    var r := localSeconds % SECONDS_PER_DAY;
    assert localSeconds + SECONDS_PER_DAY == (d + 1) * SECONDS_PER_DAY + r;
    assert (localSeconds + SECONDS_PER_DAY) / SECONDS_PER_DAY == d + 1;
    assert localSeconds + 7 * SECONDS_PER_DAY == (d + 7) * SECONDS_PER_DAY + r;
    assert (localSeconds + 7 * SECONDS_PER_DAY) / SECONDS_PER_DAY == d + 7;
    assert (d + 7 + 4) % 7 == (d + 4) % 7;
  }

  // ---------------------------------------------------------------------
  // Strings
  // ---------------------------------------------------------------------

  /** `char.IsWhiteSpace`: the Unicode space, line and paragraph separators,
      the control characters U+0009..U+000D, and U+0085. */
  predicate IsWhiteSpace(c: char)
  {
    c == ' ' || ('\t' <= c <= '\r') || c == '\U{0085}' || c == '\U{00A0}' || c == '\U{1680}'
    || ('\U{2000}' <= c <= '\U{200A}') || c == '\U{2028}' || c == '\U{2029}'
    || c == '\U{202F}' || c == '\U{205F}' || c == '\U{3000}'
  }

  /** `string.IsNullOrWhiteSpace` on a non-null string. */
  predicate IsBlank(s: string)
  {
    forall i :: 0 <= i < |s| ==> IsWhiteSpace(s[i])
  }

  /** `string.IsNullOrWhiteSpace`, where `None` stands for `null`. */
  predicate IsNullOrWhiteSpace(s: Option<string>)
  {
    s.None? || IsBlank(s.value)
  }

  /** Removes every leading and trailing character that satisfies `strip`. */
  function TrimBy(s: string, strip: char -> bool): (t: string)
    ensures |t| <= |s|
    ensures t != [] ==> !strip(t[0]) && !strip(t[|t| - 1])
    decreases |s|
  {
    if s == [] then s
    else if strip(s[0]) then TrimBy(s[1..], strip)
    else if strip(s[|s| - 1]) then TrimBy(s[..|s| - 1], strip)
    else s
  }

  /** `string.Trim()`: strips white space at both ends. */
  function Trim(s: string): string
  {
    TrimBy(s, IsWhiteSpace)
  }

  /** `string.Trim(c)`: strips the character `c` at both ends. */
  function TrimChar(s: string, c: char): string
  {
    TrimBy(s, x => x == c)
  }

  lemma {:induction false} TrimByKeepsUnstripped(s: string, strip: char -> bool)
    requires s != [] && !strip(s[0]) && !strip(s[|s| - 1])
    ensures TrimBy(s, strip) == s
  {
  }

  lemma {:induction false} TrimByEmptyIffAllStripped(s: string, strip: char -> bool)
    ensures TrimBy(s, strip) == [] <==> forall i :: 0 <= i < |s| ==> strip(s[i])
    decreases |s|
  {
    if s == [] {
    } else if strip(s[0]) {
      TrimByEmptyIffAllStripped(s[1..], strip);
      assert forall i :: 1 <= i < |s| ==> s[i] == s[1..][i - 1];
    } else if strip(s[|s| - 1]) {
      TrimByEmptyIffAllStripped(s[..|s| - 1], strip);
    } else {
    }
  }

  /** A string is blank exactly when trimming leaves nothing. */
  lemma BlankIffTrimEmpty(s: string)
    ensures IsBlank(s) <==> Trim(s) == []
  {
    TrimByEmptyIffAllStripped(s, IsWhiteSpace);
  }

  /** `s.StartsWith(prefix, StringComparison.Ordinal)`. */
  predicate StartsWith(s: string, prefix: string)
  {
    |prefix| <= |s| && s[..|prefix|] == prefix
  }

  /** `string.Split(sep)` (no options): the pieces between separators, in
      order, including empty ones; there is always at least one piece. */
  function Split(s: string, sep: char): (parts: seq<string>)
    ensures |parts| >= 1
    ensures forall i :: 0 <= i < |parts| ==> sep !in parts[i]
    decreases |s|
  {
    if s == [] then [""]
    else if s[0] == sep then [""] + Split(s[1..], sep)
    else
      var rest := Split(s[1..], sep);
      [[s[0]] + rest[0]] + rest[1..]
  }

  /** `string.Join(sep, parts)`. */
  function Join(parts: seq<string>, sep: char): string
    decreases |parts|
  {
    if parts == [] then ""
    else if |parts| == 1 then parts[0]
    else parts[0] + [sep] + Join(parts[1..], sep)
  }

  /** Splitting and re-joining on the same separator gives back the input. */
  lemma {:induction false} JoinSplit(s: string, sep: char)
    ensures Join(Split(s, sep), sep) == s
    decreases |s|
  {
    if s == [] {
    } else if s[0] == sep {
      JoinSplit(s[1..], sep);
      var rest := Split(s[1..], sep);
      assert Split(s, sep) == [""] + rest;
      assert ([""] + rest)[1..] == rest;
      assert Join([""] + rest, sep) == "" + [sep] + Join(rest, sep);
      assert s == [sep] + s[1..];
    } else {
      JoinSplit(s[1..], sep);
      var rest := Split(s[1..], sep);
      var parts := [[s[0]] + rest[0]] + rest[1..];
      assert Split(s, sep) == parts;
      if |rest| == 1 {
        assert Join(parts, sep) == [s[0]] + rest[0];
        assert s == [s[0]] + s[1..];
      } else {
        assert parts[1..] == rest[1..];
        assert Join(rest, sep) == rest[0] + [sep] + Join(rest[1..], sep);
        assert Join(parts, sep) == ([s[0]] + rest[0]) + [sep] + Join(rest[1..], sep);
        assert s == [s[0]] + s[1..];
      }
    }
  }

  /** A string without the separator splits into itself alone. */
  lemma {:induction false} SplitWithoutSeparator(s: string, sep: char)
    requires sep !in s
    ensures Split(s, sep) == [s]
    decreases |s|
  {
    if s != [] {
      assert sep !in s[1..] by {
        forall i | 0 <= i < |s[1..]| ensures s[1..][i] != sep { assert s[1..][i] == s[i + 1]; }
      }
      SplitWithoutSeparator(s[1..], sep);
      assert s == [s[0]] + s[1..];
    }
  }

  /** Every character of every piece comes from the input. */
  lemma {:induction false} SplitPiecesFromInput(s: string, sep: char)
    ensures forall i, c :: 0 <= i < |Split(s, sep)| && c in Split(s, sep)[i] ==> c in s
    decreases |s|
  {
    if s != [] {
      SplitPiecesFromInput(s[1..], sep);
      assert forall c :: c in s[1..] ==> c in s;
    }
  }

  /** Splitting `a` followed by the separator and `rest` peels `a` off as
      the first piece. */
  lemma {:induction false} SplitAfterPiece(a: string, rest: string, sep: char)
    requires sep !in a
    ensures Split(a + [sep] + rest, sep) == [a] + Split(rest, sep)
    decreases |a|
  {
    if a == [] {
      assert a + [sep] + rest == [sep] + rest;
      assert ([sep] + rest)[1..] == rest;
    } else {
      var tail := a[1..];
      assert sep !in tail by {
        forall i | 0 <= i < |tail| ensures tail[i] != sep { assert tail[i] == a[i + 1]; }
      }
      SplitAfterPiece(tail, rest, sep);
      var whole := a + [sep] + rest;
      assert whole[0] == a[0];
      assert whole[1..] == tail + [sep] + rest;
      assert [a[0]] + tail == a;
    }
  }

  /** Joining pieces free of the separator and splitting again gives the
      pieces back. */
  lemma {:induction false} SplitJoin(parts: seq<string>, sep: char)
    requires |parts| >= 1
    requires forall i :: 0 <= i < |parts| ==> sep !in parts[i]
    ensures Split(Join(parts, sep), sep) == parts
    decreases |parts|
  {
    if |parts| == 1 {
      SplitWithoutSeparator(parts[0], sep);
    } else {
      var more := parts[1..];
      SplitJoin(more, sep);
      SplitAfterPiece(parts[0], Join(more, sep), sep);
      assert parts == [parts[0]] + more;
    }
  }

  /** ASCII upper-casing; every other character maps to itself. */
  function UpperAscii(c: char): char
  {
    if 'a' <= c <= 'z' then (c as int - 32) as char else c
  }

  /** `string.Equals(a, b, StringComparison.OrdinalIgnoreCase)`, restricted to
      ASCII case folding. */
  predicate EqualsIgnoreCase(a: string, b: string)
  {
    |a| == |b| && forall i :: 0 <= i < |a| ==> UpperAscii(a[i]) == UpperAscii(b[i])
  }
}
