/** The string and slice helpers of Rust's standard library that the core
    relies on: `join`, `split`, `str::lines`, `str::trim` and the UTF-8 bytes
    of a `&str`. */
module Text {

  type byte = x: int | 0 <= x < 256

  /** `[S]::join(sep)`: the parts with `sep` between neighbours. */
  function Join<T>(parts: seq<seq<T>>, sep: seq<T>): seq<T>
  {
    if |parts| == 0 then []
    else if |parts| == 1 then parts[0]
    else parts[0] + sep + Join(parts[1..], sep)
  }

  /** Joining two non-empty lists is joining each and gluing with `sep`. */
  lemma {:induction false} JoinAppend<T>(a: seq<seq<T>>, b: seq<seq<T>>, sep: seq<T>)
    requires a != [] && b != []
    ensures Join(a + b, sep) == Join(a, sep) + sep + Join(b, sep)
  {
    if |a| == 1 {
      assert (a + b)[1..] == b;
    } else {
      assert (a + b)[1..] == a[1..] + b;
      JoinAppend(a[1..], b, sep);
    }
  }

  /** The position of the first `x` in `s`. */
  function IndexOf<T(==)>(s: seq<T>, x: T): (i: nat)
    requires x in s
    ensures i < |s| && s[i] == x && x !in s[..i]
  {
    if s[0] == x then 0 else 1 + IndexOf(s[1..], x)
  }

  lemma {:induction false} IndexOfConcat<T>(a: seq<T>, x: T, b: seq<T>)
    requires x !in a
    ensures x in a + [x] + b && IndexOf(a + [x] + b, x) == |a|
  {
    if a != [] {
      assert (a + [x] + b)[1..] == a[1..] + [x] + b;
      IndexOfConcat(a[1..], x, b);
    }
  }

  /** `split(|e| e == x)` on a slice, `str::split(char)` on a string: the
      pieces between the occurrences of `x`, empty pieces included. */
  function Split<T(==)>(s: seq<T>, x: T): (r: seq<seq<T>>)
    ensures |r| >= 1
    ensures forall k :: 0 <= k < |r| ==> x !in r[k]
    decreases |s|
  {
    if x in s then
      var i := IndexOf(s, x);
      [s[..i]] + Split(s[i + 1..], x)
    else
      [s]
  }

  /** Splitting loses nothing: joining the pieces back gives the input. */
  lemma {:induction false} JoinSplit<T>(s: seq<T>, x: T)
    ensures Join(Split(s, x), [x]) == s
    decreases |s|
  {
    if x in s {
      var i := IndexOf(s, x);
      var rest := Split(s[i + 1..], x);
      JoinSplit(s[i + 1..], x);
      var parts := Split(s, x);
      assert parts == [s[..i]] + rest;
      assert |parts| >= 2 && parts[0] == s[..i] && parts[1..] == rest;
      assert Join(parts, [x]) == s[..i] + [x] + s[i + 1..];
      assert s == s[..i] + [x] + s[i + 1..];
    }
  }

  /** Splitting undoes joining when no part contains the separator. */
  lemma {:induction false} SplitJoin<T>(parts: seq<seq<T>>, x: T)
    requires |parts| >= 1
    requires forall k :: 0 <= k < |parts| ==> x !in parts[k]
    ensures Split(Join(parts, [x]), x) == parts
  {
    if |parts| > 1 {
      var head, tail := parts[0], Join(parts[1..], [x]);
      var s := head + [x] + tail;
      assert Join(parts, [x]) == s;
      IndexOfConcat(head, x, tail);
      var i := IndexOf(s, x);
      assert s[..i] == head;
      assert s[i + 1..] == tail;
      assert Split(s, x) == [head] + Split(tail, x);
      SplitJoin(parts[1..], x);
      assert parts == [head] + parts[1..];
    }
  }

  /** Drops one `'\r'` at the end of a line. */
  function StripCR(l: string): (r: string)
    ensures |r| <= |l| && r == l[..|r|]
  {
    if |l| > 0 && l[|l| - 1] == '\r' then l[..|l| - 1] else l
  }

  /** `str::lines`: split at `'\n'`; a `'\r'` right before a `'\n'` goes
      with it; a final line ending adds no empty line. */
  function Lines(s: string): (r: seq<string>)
    ensures forall k :: 0 <= k < |r| ==> '\n' !in r[k]
    decreases |s|
  {
    if s == [] then []
    else if '\n' in s then
      var i := IndexOf(s, '\n');
      [StripCR(s[..i])] + Lines(s[i + 1..])
    else
      [s]
  }

  /** What `Lines` reads back from newline-free lines joined with `"\n"`:
      each line, less a `'\r'` that ended up in front of a `'\n'`. */
  function Relined(ls: seq<string>): (r: seq<string>)
    ensures |r| == |ls|
    ensures forall k :: 0 <= k < |ls| ==> r[k] == if k < |ls| - 1 then StripCR(ls[k]) else ls[k]
  {
    if |ls| <= 1 then ls else [StripCR(ls[0])] + Relined(ls[1..])
  }

  /** Joining newline-free lines with `"\n"` and reading them back with
      `Lines` gives the same lines, up to a `'\r'` that ended up in front
      of a `'\n'`. */
  lemma {:induction false} LinesOfJoin(ls: seq<string>)
    requires forall k :: 0 <= k < |ls| ==> '\n' !in ls[k]
    requires |ls| > 0 ==> ls[|ls| - 1] != []
    ensures Lines(Join(ls, "\n")) == Relined(ls)
  {
    if |ls| > 1 {
      var tail := ls[1..];
      JoinCons(ls, "\n");
      assert forall k :: 0 <= k < |tail| ==> tail[k] == ls[k + 1];
      LinesCons(ls[0], Join(tail, "\n"), Join(ls, "\n"));
      LinesOfJoin(tail);
    }
  }

  /** Joining lines that each end up unchanged, with a final `"\n"`, reads
      back as exactly those lines. */
  lemma {:induction false} LinesTerminated(ls: seq<string>)
    requires ls != []
    requires forall k :: 0 <= k < |ls| ==> PlainLine(ls[k])
    ensures Lines(Join(ls, "\n") + "\n") == ls
  {
    var s := Join(ls, "\n") + "\n";
    var first := ls[0];
    assert PlainLine(first);
    if |ls| == 1 {
      assert s == first + ['\n'] + "";
      LinesCons(first, "", s);
    } else {
      var tail := ls[1..];
      JoinCons(ls, "\n");
      assert s == first + ['\n'] + (Join(tail, "\n") + "\n");
      assert forall k :: 0 <= k < |tail| ==> tail[k] == ls[k + 1];
      LinesTerminated(tail);
      LinesCons(first, Join(tail, "\n") + "\n", s);
      HeadTail(ls);
    }
  }

  /** A line that `lines()` gives back unchanged when a `"\n"` follows it. */
  predicate PlainLine(l: string) {
    '\n' !in l && (l == [] || l[|l| - 1] != '\r')
  }

  /** `lines()` on a first line ended by `"\n"` and the rest. */
  lemma LinesCons(line: string, rest: string, s: string)
    requires '\n' !in line && s == line + ['\n'] + rest
    ensures Lines(s) == [StripCR(line)] + Lines(rest)
  {
    IndexOfConcat(line, '\n', rest);
    assert s[..|line|] == line;
    assert s[|line| + 1..] == rest;
  }

  lemma JoinCons<T>(parts: seq<seq<T>>, sep: seq<T>)
    requires |parts| > 1
    ensures Join(parts, sep) == parts[0] + sep + Join(parts[1..], sep)
  {
  }

  lemma HeadTail<T>(s: seq<T>)
    requires s != []
    ensures s == [s[0]] + s[1..]
  {
  }

  /** `char::is_whitespace`: the Unicode White_Space property. */
  predicate IsWhitespace(c: char) {
    || '\t' <= c <= '\r'
    || c == ' '
    || c == '\U{0085}'
    || c == '\U{00A0}'
    || c == '\U{1680}'
    || '\U{2000}' <= c <= '\U{200A}'
    || c == '\U{2028}'
    || c == '\U{2029}'
    || c == '\U{202F}'
    || c == '\U{205F}'
    || c == '\U{3000}'
  }

  /** `str::trim_start` */
  function TrimStart(s: string): (r: string)
    ensures |r| <= |s| && r == s[|s| - |r|..]
    ensures forall k :: 0 <= k < |s| - |r| ==> IsWhitespace(s[k])
    ensures r != [] ==> !IsWhitespace(r[0])
  {
    if s != [] && IsWhitespace(s[0]) then TrimStart(s[1..]) else s
  }

  /** `str::trim_end` */
  function TrimEnd(s: string): (r: string)
    ensures |r| <= |s| && r == s[..|r|]
    ensures forall k :: |r| <= k < |s| ==> IsWhitespace(s[k])
    ensures r != [] ==> !IsWhitespace(r[|r| - 1])
  {
    if s != [] && IsWhitespace(s[|s| - 1]) then TrimEnd(s[..|s| - 1]) else s
  }

  /** `r` is what is left of `s` after removing `i` white-space characters
      in front and all the rest behind. */
  ghost predicate TrimmedAt(s: string, r: string, i: int) {
    && 0 <= i <= |s| - |r|
    && r == s[i..i + |r|]
    && (forall k :: 0 <= k < i ==> IsWhitespace(s[k]))
    && (forall k :: i + |r| <= k < |s| ==> IsWhitespace(s[k]))
  }

  /** `str::trim`: the slice left after removing white space at both ends. */
  function Trim(s: string): (r: string)
    ensures exists i :: TrimmedAt(s, r, i)
    ensures r != [] ==> !IsWhitespace(r[0]) && !IsWhitespace(r[|r| - 1])
  {
    var t := TrimStart(s);
    var r := TrimEnd(t);
    var i := |s| - |t|;
    assert TrimmedAt(s, r, i);
    r
  }

  /** A string trims to nothing exactly when it is all white space. */
  lemma TrimEmpty(s: string)
    ensures Trim(s) == [] <==> forall k :: 0 <= k < |s| ==> IsWhitespace(s[k])
  {
  }

  /** The UTF-8 encoding of one scalar value (section 3 of RFC 3629). */
  function Utf8Char(c: char): (r: seq<byte>)
    ensures 1 <= |r| <= 4
    ensures (c as int < 0x80) <==> |r| == 1
  {
    var v := c as int;
    if v < 0x80 then [v]
    else if v < 0x800 then [0xC0 + v / 64, 0x80 + v % 64]
    else if v < 0x10000 then [0xE0 + v / 4096, 0x80 + (v / 64) % 64, 0x80 + v % 64]
    else [0xF0 + v / 262144, 0x80 + (v / 4096) % 64, 0x80 + (v / 64) % 64, 0x80 + v % 64]
  }

  /** `str::as_bytes`: the UTF-8 bytes of a string. */
  function Utf8Encode(s: string): seq<byte>
  {
    if s == [] then [] else Utf8Char(s[0]) + Utf8Encode(s[1..])
  }

  predicate IsAscii(s: string) {
    forall k :: 0 <= k < |s| ==> s[k] as int < 0x80
  }

  /** An ASCII string's bytes are its code points, one byte per character. */
  lemma {:induction false} AsciiUtf8(s: string)
    requires IsAscii(s)
    ensures |Utf8Encode(s)| == |s|
    ensures forall k :: 0 <= k < |s| ==> Utf8Encode(s)[k] == s[k] as int
  {
    if s != [] {
      AsciiUtf8(s[1..]);
    }
  }
}
