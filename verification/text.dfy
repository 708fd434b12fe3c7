/** String operations of Python that the service relies on, over `string = seq<char>`:
    `str.split("\n")`, `"\n".join(...)`, `str.strip()`, `str.startswith(...)`, the lines a
    text file yields when iterated, and `readline()`. File text is taken after Python's
    universal-newline translation, so `"\n"` is the only line terminator. */
module Text {

  const NL: char := '\n'

  /** Number of occurrences of `c` in `s`. */
  function Count(s: string, c: char): nat
  {
    if s == [] then 0 else (if s[0] == c then 1 else 0) + Count(s[1..], c)
  }

  /** `s.split("\n")`: the maximal newline-free pieces between newlines, in order. */
  function Split(s: string): (rows: seq<string>)
    ensures |rows| == Count(s, NL) + 1
    ensures forall i :: 0 <= i < |rows| ==> NL !in rows[i]
  {
    if s == [] then [""]
    else
      var rest := Split(s[1..]);
      if s[0] == NL then [""] + rest
      else [[s[0]] + rest[0]] + rest[1..]
  }

  /** `"\n".join(rows)`. */
  function Join(rows: seq<string>): string
  {
    if |rows| == 0 then ""
    else if |rows| == 1 then rows[0]
    else rows[0] + [NL] + Join(rows[1..])
  }

  /** Joining a first row with the rest. */
  lemma JoinCons(head: string, tail: seq<string>)
    ensures Join([head] + tail) == if tail == [] then head else head + [NL] + Join(tail)
  {
    assert ([head] + tail)[0] == head;
    assert ([head] + tail)[1..] == tail;
  }

  /** Prefixing a character to the first row prefixes it to the joined text. */
  lemma JoinConsChar(c: char, head: string, tail: seq<string>)
    ensures Join([[c] + head] + tail) == [c] + Join([head] + tail)
  {
    JoinCons([c] + head, tail);
    JoinCons(head, tail);
    if tail != [] {
      assert ([c] + head) + [NL] + Join(tail) == [c] + (head + [NL] + Join(tail));
    }
  }

  /** Joining the pieces of a split gives back the text: split and join are inverse. */
  lemma {:induction false} JoinSplit(s: string)
    ensures Join(Split(s)) == s
  {
    if s != [] {
      var rest := Split(s[1..]);
      JoinSplit(s[1..]);
      if s[0] == NL {
        assert ([""] + rest)[1..] == rest;
        assert s == [NL] + s[1..];
      } else {
        JoinConsChar(s[0], rest[0], rest[1..]);
        assert [rest[0]] + rest[1..] == rest;
        assert s == [s[0]] + s[1..];
      }
    }
  }

  /** A newline-free prefix extends the first piece of the split and leaves the rest alone. */
  lemma {:induction false} SplitPrefix(a: string, t: string)
    requires NL !in a
    ensures Split(a + t) == [a + Split(t)[0]] + Split(t)[1..]
  {
    if a != [] {
      assert (a + t)[0] == a[0];
      assert (a + t)[1..] == a[1..] + t;
      SplitPrefix(a[1..], t);
      assert [a[0]] + (a[1..] + Split(t)[0]) == a + Split(t)[0];
    } else {
      assert a + t == t;
      assert a + Split(t)[0] == Split(t)[0];
      assert Split(t) == [Split(t)[0]] + Split(t)[1..];
    }
  }

  /** A newline-free text followed by a newline is exactly the first piece. */
  lemma SplitAtNewline(a: string, t: string)
    requires NL !in a
    ensures Split(a + [NL] + t) == [a] + Split(t)
  {
    assert ([NL] + t)[1..] == t;
    assert Split([NL] + t) == [""] + Split(t);
    assert a + [NL] + t == a + ([NL] + t);
    SplitPrefix(a, [NL] + t);
    assert a + "" == a;
  }

  /** Splitting the join of newline-free rows gives the rows back. */
  lemma {:induction false} SplitJoin(rows: seq<string>)
    requires |rows| > 0
    requires forall i :: 0 <= i < |rows| ==> NL !in rows[i]
    ensures Split(Join(rows)) == rows
  {
    if |rows| == 1 {
      SplitPrefix(rows[0], "");
      assert rows[0] + "" == rows[0];
    } else {
      SplitJoin(rows[1..]);
      SplitAtNewline(rows[0], Join(rows[1..]));
      assert rows == [rows[0]] + rows[1..];
    }
  }

  /** The join is empty exactly when there are no rows or one empty row. */
  lemma JoinEmpty(rows: seq<string>)
    ensures Join(rows) == "" <==> (rows == [] || rows == [""])
  {
    if |rows| > 1 {
      assert |Join(rows)| >= 1;
    }
  }

  /** Python's `str.isspace`, the characters `str.strip()` removes. */
  predicate IsSpace(c: char)
  {
    var n := c as int;
    || n == 0x20 || 0x09 <= n <= 0x0D || 0x1C <= n <= 0x1F || n == 0x85 || n == 0xA0
    || n == 0x1680 || 0x2000 <= n <= 0x200A || n == 0x2028 || n == 0x2029
    || n == 0x202F || n == 0x205F || n == 0x3000
  }

  /** Length of the whitespace run at the start of `s`. */
  function LeadingSpaces(s: string): (n: nat)
    ensures n <= |s|
    ensures forall k :: 0 <= k < n ==> IsSpace(s[k])
    ensures n < |s| ==> !IsSpace(s[n])
  {
    if s == [] || !IsSpace(s[0]) then 0 else 1 + LeadingSpaces(s[1..])
  }

  /** Length of the whitespace run at the end of `s`. */
  function TrailingSpaces(s: string): (n: nat)
    ensures n <= |s|
    ensures forall k :: |s| - n <= k < |s| ==> IsSpace(s[k])
    ensures n < |s| ==> !IsSpace(s[|s| - n - 1])
  {
    if s == [] || !IsSpace(s[|s| - 1]) then 0 else 1 + TrailingSpaces(s[..|s| - 1])
  }

  /** `s.strip()`: `s` without its leading and trailing whitespace. */
  function Strip(s: string): (r: string)
    ensures r == [] || (!IsSpace(r[0]) && !IsSpace(r[|r| - 1]))
    ensures LeadingSpaces(s) + |r| + TrailingSpaces(s) == |s| || (r == [] && LeadingSpaces(s) == |s|)
    ensures forall k :: 0 <= k < |r| ==> r[k] == s[LeadingSpaces(s) + k]
  {
    var i := LeadingSpaces(s);
    if i == |s| then "" else s[i..|s| - TrailingSpaces(s)]
  }

  /** Stripping is idempotent. */
  lemma StripIdempotent(s: string)
    ensures Strip(Strip(s)) == Strip(s)
  {
    var r := Strip(s);
    if r != [] {
      assert LeadingSpaces(r) == 0;
      assert TrailingSpaces(r) == 0;
    }
  }

  /** A line whose only newline, if any, is its last character strips to a newline-free text. */
  lemma StripRemovesLineEnd(s: string)
    requires forall k :: 0 <= k < |s| - 1 ==> s[k] != NL
    ensures NL !in Strip(s)
  {
  }

  /** `s.startswith(p)`. */
  predicate StartsWith(s: string, p: string)
  {
    |p| <= |s| && s[..|p|] == p
  }

  /** The lines iterating over a text file yields: each ends in a newline except perhaps
      the last, and an empty file yields none. */
  function FileLines(s: string): (lines: seq<string>)
    ensures s == [] <==> lines == []
    ensures forall i :: 0 <= i < |lines| ==> |lines[i]| > 0
    ensures forall i, k :: 0 <= i < |lines| && 0 <= k < |lines[i]| - 1 ==> lines[i][k] != NL
    ensures forall i :: 0 <= i < |lines| - 1 ==> lines[i][|lines[i]| - 1] == NL
  {
    if s == [] then []
    else
      var rest := FileLines(s[1..]);
      if s[0] == NL || rest == [] then [[s[0]]] + rest
      else [[s[0]] + rest[0]] + rest[1..]
  }

  /** Concatenation of a sequence of strings. */
  function Concat(parts: seq<string>): string
  {
    if parts == [] then "" else parts[0] + Concat(parts[1..])
  }

  lemma ConcatCons(head: string, tail: seq<string>)
    ensures Concat([head] + tail) == head + Concat(tail)
  {
    assert ([head] + tail)[1..] == tail;
  }

  /** Moving the first character of the first part out of the concatenation. */
  lemma ConcatConsChar(c: char, head: string, tail: seq<string>)
    ensures Concat([[c] + head] + tail) == [c] + Concat([head] + tail)
  {
    ConcatCons([c] + head, tail);
    ConcatCons(head, tail);
  }

  /** Iterating a file loses nothing: the lines concatenate back to the text. */
  lemma {:induction false} ConcatFileLines(s: string)
    ensures Concat(FileLines(s)) == s
  {
    if s != [] {
      var c, t := s[0], s[1..];
      var rest := FileLines(t);
      ConcatFileLines(t);
      if c == NL || rest == [] {
        ConcatCons([c], rest);
      } else {
        ConcatConsChar(c, rest[0], rest[1..]);
        assert [rest[0]] + rest[1..] == rest;
      }
      assert s == [c] + t;
    }
  }

  /** `readline()` on a file holding `s`: everything up to and including the first
      newline, or all of `s` when it has none. */
  function FirstLine(s: string): (r: string)
    ensures |r| <= |s| && r == s[..|r|]
    ensures forall k :: 0 <= k < |r| - 1 ==> r[k] != NL
    ensures NL in s <==> (|r| > 0 && r[|r| - 1] == NL)
    ensures NL !in s ==> r == s
  {
    if s == [] then ""
    else if s[0] == NL then [NL]
    else [s[0]] + FirstLine(s[1..])
  }

  /** `readline()` returns the first line file iteration would yield. */
  lemma {:induction false} FirstLineIsFirstFileLine(s: string)
    requires s != []
    ensures FirstLine(s) == FileLines(s)[0]
  {
    if s[0] != NL && s[1..] != [] {
      FirstLineIsFirstFileLine(s[1..]);
    }
  }

  /** Reading one line from a file that already holds one line changes nothing. */
  lemma FirstLineIdempotent(s: string)
    ensures FirstLine(FirstLine(s)) == FirstLine(s)
  {
    var r := FirstLine(s);
    if NL in r {
      var k :| 0 <= k < |r| && r[k] == NL;
      assert k == |r| - 1;
      FirstLineOfLine(r);
    }
  }

  lemma {:induction false} FirstLineOfLine(r: string)
    requires |r| > 0 && r[|r| - 1] == NL
    requires forall k :: 0 <= k < |r| - 1 ==> r[k] != NL
    ensures FirstLine(r) == r
  {
    if r[0] != NL {
      var t := r[1..];
      assert |t| > 0 && t[|t| - 1] == NL;
      assert forall k :: 0 <= k < |t| - 1 ==> t[k] != NL by {
        forall k | 0 <= k < |t| - 1 ensures t[k] != NL {
          assert t[k] == r[k + 1];
        }
      }
      FirstLineOfLine(t);
      assert FirstLine(r) == [r[0]] + FirstLine(t);
      assert r == [r[0]] + t;
    }
  }
}
