/** Newline-joining and newline-splitting of strings, as Python's
    `"\n".join(parts)` and `s.split("\n")` behave. */
module Text {

  const Newline: char := '\n'

  /** True if `s` holds no line break. */
  predicate SingleLine(s: string) {
    Newline !in s
  }

  /** `"\n".join(parts)`: the parts in order, one line break between
      neighbours; the empty list joins to the empty string. */
  function Join(parts: seq<string>): string
  {
    if |parts| == 0 then ""
    else if |parts| == 1 then parts[0]
    else parts[0] + [Newline] + Join(parts[1..])
  }

  /** `s.split("\n")`: the maximal line-break-free pieces of `s`, in order;
      there is always at least one piece. */
  function Split(s: string): (parts: seq<string>)
    ensures |parts| >= 1
    ensures forall i :: 0 <= i < |parts| ==> SingleLine(parts[i])
  {
    if |s| == 0 then [""]
    else if s[0] == Newline then [""] + Split(s[1..])
    else
      var rest := Split(s[1..]);
      [[s[0]] + rest[0]] + rest[1..]
  }

  /** Appending one more part adds one line break and that part at the end. */
  lemma {:induction false} JoinSnoc(parts: seq<string>, last: string)
    ensures Join(parts + [last]) ==
            if parts == [] then last else Join(parts) + [Newline] + last
  {
    if |parts| > 1 {
      assert (parts + [last])[1..] == parts[1..] + [last];
      JoinSnoc(parts[1..], last);
    } else if |parts| == 1 {
      assert parts + [last] == [parts[0], last];
    }
  }

  /** A single-line piece followed by a line break splits off as one part. */
  lemma {:induction false} SplitAfterLine(x: string, y: string)
    requires SingleLine(x)
    ensures Split(x + [Newline] + y) == [x] + Split(y)
  {
    if |x| == 0 {
      assert x + [Newline] + y == [Newline] + y;
      assert ([Newline] + y)[1..] == y;
    } else {
      var s := x + [Newline] + y;
      assert s[0] == x[0] && s[1..] == x[1..] + [Newline] + y;
      SplitAfterLine(x[1..], y);
      assert [x[0]] + x[1..] == x;
    }
  }

  /** A single-line string splits into itself. */
  lemma {:induction false} SplitSingle(x: string)
    requires SingleLine(x)
    ensures Split(x) == [x]
  {
    if |x| > 0 {
      SplitSingle(x[1..]);
      assert [x[0]] + x[1..] == x;
    }
  }

  /** Splitting undoes joining, for a non-empty list of single-line parts. */
  lemma {:induction false} SplitJoin(parts: seq<string>)
    requires |parts| >= 1
    requires forall i :: 0 <= i < |parts| ==> SingleLine(parts[i])
    ensures Split(Join(parts)) == parts
  {
    if |parts| == 1 {
      SplitSingle(parts[0]);
    } else {
      SplitJoin(parts[1..]);
      SplitAfterLine(parts[0], Join(parts[1..]));
      assert [parts[0]] + parts[1..] == parts;
    }
  }

  /** Joining undoes splitting, for every string. */
  lemma {:induction false} JoinSplit(s: string)
    ensures Join(Split(s)) == s
  {
    if |s| > 0 {
      JoinSplit(s[1..]);
      var rest := Split(s[1..]);
      if s[0] == Newline {
        assert Split(s) == [""] + rest;
        assert ([""] + rest)[1..] == rest;
        assert [s[0]] + s[1..] == s;
      } else if |rest| == 1 {
        assert Split(s) == [[s[0]] + rest[0]];
        assert [s[0]] + s[1..] == s;
      } else {
        var parts := Split(s);
        assert parts == [[s[0]] + rest[0]] + rest[1..];
        assert parts[1..] == rest[1..];
        assert Join(rest) == rest[0] + [Newline] + Join(rest[1..]);
        assert [s[0]] + s[1..] == s;
      }
    }
  }
}
