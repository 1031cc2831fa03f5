/** Shared value types of the automation engine: optional values, instants,
    and the few string operations the engine performs (suffix tests,
    joining and splitting on newlines, rendering a count in decimal). */
module Common {

  datatype Option<+T> = None | Some(value: T)

  /** A point in time: microseconds since the Unix epoch, in UTC. */
  type Instant = int

  /** `timedelta(hours=1)` in microseconds. */
  const OneHour: int := 3_600_000_000

  /** Python's `str.endswith`. */
  predicate EndsWith(s: string, suffix: string)
  {
    |suffix| <= |s| && s[|s| - |suffix|..] == suffix
  }

  /** Python's `'\n'.join(parts)`. */
  function JoinLines(parts: seq<string>): (r: string)
    ensures |parts| == 1 ==> r == parts[0]
    ensures parts == [] ==> r == ""
  {
    if |parts| == 0 then ""
    else if |parts| == 1 then parts[0]
    else parts[0] + "\n" + JoinLines(parts[1..])
  }

  /** Python's `s.split('\n')`: never empty, and "" splits into [""]. */
  function SplitLines(s: string): (r: seq<string>)
    ensures |r| >= 1
  {
    if s == [] then [""]
    else if s[0] == '\n' then [""] + SplitLines(s[1..])
    else
      var rest := SplitLines(s[1..]);
      [[s[0]] + rest[0]] + rest[1..]
  }

  /** Splitting a text that starts with a newline-free prefix glues the
      prefix onto the first line. */
  lemma {:induction false} SplitLinesPrefix(p: string, rest: string)
    requires '\n' !in p
    ensures SplitLines(p + rest) == [p + SplitLines(rest)[0]] + SplitLines(rest)[1..]
  {
    if p != [] {
      assert (p + rest)[0] == p[0];
      assert (p + rest)[1..] == p[1..] + rest;
      SplitLinesPrefix(p[1..], rest);
      assert [p[0]] + (p[1..] + SplitLines(rest)[0]) == p + SplitLines(rest)[0];
    } else {
      var r := SplitLines(rest);
      assert p + rest == rest && p + r[0] == r[0];
      assert [r[0]] + r[1..] == r;
    }
  }

  /** Joining newline-free lines and splitting the text again gives the
      lines back: the captured prints of a script are recoverable from the
      stdout text that joins them. */
  lemma {:induction false} SplitJoinLines(parts: seq<string>)
    requires |parts| >= 1
    requires forall i :: 0 <= i < |parts| ==> '\n' !in parts[i]
    ensures SplitLines(JoinLines(parts)) == parts
  {
    if |parts| == 1 {
      SplitLinesPrefix(parts[0], "");
      assert parts[0] + "" == parts[0];
    } else {
      var tail := JoinLines(parts[1..]);
      SplitJoinLines(parts[1..]);
      assert parts[0] + "\n" + tail == parts[0] + ("\n" + tail);
      SplitLinesPrefix(parts[0], "\n" + tail);
      assert ("\n" + tail)[0] == '\n' && ("\n" + tail)[1..] == tail;
      assert SplitLines("\n" + tail) == [""] + parts[1..];
      assert parts[0] + "" == parts[0];
    }
  }

  /** Python's `str(n)` for a natural number. */
  function Decimal(n: nat): (r: string)
    ensures |r| >= 1
    ensures forall i :: 0 <= i < |r| ==> '0' <= r[i] <= '9'
  {
    if n < 10 then [Digit(n)] else Decimal(n / 10) + [Digit(n % 10)]
  }

  function Digit(d: nat): (c: char)
    requires d < 10
    ensures '0' <= c <= '9'
  {
    ['0', '1', '2', '3', '4', '5', '6', '7', '8', '9'][d]
  }

  /** Code-point lexicographic order on strings (`ORDER BY name`). */
  predicate StrLe(a: string, b: string)
  {
    if a == [] then true
    else if b == [] then false
    else if a[0] != b[0] then a[0] < b[0]
    else StrLe(a[1..], b[1..])
  }

  lemma {:induction false} StrLeTotal(a: string, b: string)
    ensures StrLe(a, b) || StrLe(b, a)
  {
    if a != [] && b != [] && a[0] == b[0] {
      StrLeTotal(a[1..], b[1..]);
    }
  }

  lemma {:induction false} StrLeTrans(a: string, b: string, c: string)
    requires StrLe(a, b) && StrLe(b, c)
    ensures StrLe(a, c)
  {
    if a != [] && b != [] && c != [] && a[0] == b[0] && b[0] == c[0] {
      StrLeTrans(a[1..], b[1..], c[1..]);
    }
  }
}
