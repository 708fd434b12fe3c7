/** The template cleaning of register_prompts.py, lifted out of its `__main__` block into
    functions over the lines of the prompt file: comment lines (those whose raw text starts
    with `#`) are dropped, every other line is stripped and ended with one newline. The
    registration itself is MLflow's business; only the registered name is modelled. */
module PromptRegistry {
  import opened Text

  const CommentMarker: string := "#"

  /** `line.startswith("#")`, applied to the raw line, before stripping. */
  predicate IsComment(line: string)
  {
    StartsWith(line, CommentMarker)
  }

  /** What one line of the prompt file adds to the template. */
  function Piece(line: string): string
  {
    if IsComment(line) then "" else Strip(line) + [NL]
  }

  /** The template the loop builds from `lines`. */
  function Clean(lines: seq<string>): string
  {
    if lines == [] then "" else Piece(lines[0]) + Clean(lines[1..])
  }

  /** The lines the loop keeps, in their original order. */
  function Kept(lines: seq<string>): (kept: seq<string>)
    ensures |kept| <= |lines|
    ensures forall i :: 0 <= i < |kept| ==> !IsComment(kept[i])
  {
    if lines == [] then []
    else (if IsComment(lines[0]) then [] else [lines[0]]) + Kept(lines[1..])
  }

  /** Every non-comment line is kept. */
  lemma {:induction false} NonCommentKept(lines: seq<string>, i: nat)
    requires i < |lines| && !IsComment(lines[i])
    ensures lines[i] in Kept(lines)
  {
    if i > 0 {
      assert lines[i] == lines[1..][i - 1];
      NonCommentKept(lines[1..], i - 1);
    }
  }

  /** Keeping commutes with concatenation: the kept lines of an earlier block of the file
      come before those of a later one, so the original order survives. */
  lemma {:induction false} KeptConcat(a: seq<string>, b: seq<string>)
    ensures Kept(a + b) == Kept(a) + Kept(b)
  {
    if a == [] {
      assert a + b == b;
    } else {
      assert (a + b)[0] == a[0];
      assert (a + b)[1..] == a[1..] + b;
      KeptConcat(a[1..], b);
      var h := if IsComment(a[0]) then [] else [a[0]];
      assert h + (Kept(a[1..]) + Kept(b)) == (h + Kept(a[1..])) + Kept(b);
    }
  }

  function StripAll(lines: seq<string>): (r: seq<string>)
    ensures |r| == |lines|
  {
    if lines == [] then [] else [Strip(lines[0])] + StripAll(lines[1..])
  }

  /** Lines as file iteration yields them: a newline can only be the last character. */
  predicate NoInnerNewline(lines: seq<string>)
  {
    forall i, k :: 0 <= i < |lines| && 0 <= k < |lines[i]| - 1 ==> lines[i][k] != NL
  }

  /** The loop body, one line at a time: appending a line appends its piece. */
  lemma {:induction false} CleanSnoc(lines: seq<string>, line: string)
    ensures Clean(lines + [line]) == Clean(lines) + Piece(line)
  {
    if lines == [] {
      assert [line][1..] == [];
    } else {
      assert (lines + [line])[1..] == lines[1..] + [line];
      CleanSnoc(lines[1..], line);
    }
  }

  lemma {:induction false} TailNoInnerNewline(lines: seq<string>)
    requires lines != [] && NoInnerNewline(lines)
    ensures NoInnerNewline(lines[1..])
    ensures forall k :: 0 <= k < |lines[0]| - 1 ==> lines[0][k] != NL
  {
    forall i, k | 0 <= i < |lines[1..]| && 0 <= k < |lines[1..][i]| - 1
      ensures lines[1..][i][k] != NL
    {
      assert lines[1..][i] == lines[i + 1];
    }
  }

  lemma {:induction false} StripAllCons(line: string, lines: seq<string>)
    ensures StripAll([line] + lines) == [Strip(line)] + StripAll(lines)
  {
    assert ([line] + lines)[1..] == lines;
  }

  lemma {:induction false} ConsFacts(head: string, tail: seq<string>)
    ensures Clean([head] + tail) == Piece(head) + Clean(tail)
    ensures Kept([head] + tail) == (if IsComment(head) then [] else [head]) + Kept(tail)
  {
    assert ([head] + tail)[0] == head;
    assert ([head] + tail)[1..] == tail;
  }

  /** A comment line in front adds nothing. */
  lemma {:induction false} SplitCleanCommentHead(head: string, tail: seq<string>)
    requires IsComment(head)
    requires Split(Clean(tail)) == StripAll(Kept(tail)) + [""]
    ensures Split(Clean([head] + tail)) == StripAll(Kept([head] + tail)) + [""]
  {
    ConsFacts(head, tail);
    assert Clean([head] + tail) == Clean(tail);
    assert Kept([head] + tail) == Kept(tail);
  }

  /** Splitting a newline-free line, a newline and the rest. */
  lemma {:induction false} SplitLineThenRest(a: string, t: string, rows: seq<string>)
    requires NL !in a && Split(t) == rows + [""]
    ensures Split(a + [NL] + t) == ([a] + rows) + [""]
  {
    SplitAtNewline(a, t);
    assert [a] + (rows + [""]) == ([a] + rows) + [""];
  }

  /** One kept line in front: its stripped text becomes the first piece of the split. */
  lemma {:induction false} SplitCleanKeptHead(head: string, tail: seq<string>)
    requires !IsComment(head) && NL !in Strip(head)
    requires Split(Clean(tail)) == StripAll(Kept(tail)) + [""]
    ensures Split(Clean([head] + tail)) == StripAll(Kept([head] + tail)) + [""]
  {
    ConsFacts(head, tail);
    StripAllCons(head, Kept(tail));
    SplitLineThenRest(Strip(head), Clean(tail), StripAll(Kept(tail)));
  }

  /** The template read line by line is the stripped kept lines, in order, each ended by
      exactly one newline: splitting it on newlines gives them back, plus the empty text
      after the last newline. */
  lemma {:induction false} SplitClean(lines: seq<string>)
    requires NoInnerNewline(lines)
    ensures Split(Clean(lines)) == StripAll(Kept(lines)) + [""]
  {
    if lines == [] {
      assert StripAll(Kept(lines)) + [""] == [""];
    } else {
      var head, tail := lines[0], lines[1..];
      assert lines == [head] + tail;
      TailNoInnerNewline(lines);
      SplitClean(tail);
      if IsComment(head) {
        SplitCleanCommentHead(head, tail);
      } else {
        StripRemovesLineEnd(head);
        SplitCleanKeptHead(head, tail);
      }
    }
  }

  /** The template holds one newline per kept line. */
  lemma {:induction false} CleanNewlines(lines: seq<string>)
    requires NoInnerNewline(lines)
    ensures Count(Clean(lines), NL) == |Kept(lines)|
  {
    SplitClean(lines);
  }

  /** The template is empty exactly when every line is a comment. */
  lemma {:induction false} CleanEmpty(lines: seq<string>)
    ensures Clean(lines) == "" <==> Kept(lines) == []
  {
    if lines != [] {
      CleanEmpty(lines[1..]);
      if !IsComment(lines[0]) {
        assert |Clean(lines)| > 0;
      }
    }
  }

  /** The comment test looks at the raw line: an indented `#` line is kept, stripped. */
  lemma CommentTestBeforeStrip()
    ensures Piece(" #\n") == "#\n"
    ensures Piece("#\n") == ""
  {
    var line := " #\n";
    assert !IsComment(line);
    assert line[1..] == "#\n" && line[..2] == " #";
    assert LeadingSpaces("#\n") == 0;
    assert LeadingSpaces(line) == 1;
    assert TrailingSpaces(" #") == 0;
    assert TrailingSpaces(line) == 1;
  }

  /** One more line of the file adds its piece to the template. */
  lemma {:induction false} CleanStep(lines: seq<string>, i: nat)
    requires i < |lines|
    ensures Clean(lines[..i + 1]) == Clean(lines[..i]) + Piece(lines[i])
  {
    var prefix, line := lines[..i], lines[i];
    assert lines[..i + 1] == prefix + [line];
    CleanSnoc(prefix, line);
  }

  /** The loop of the script over the lines the prompt file yields. */
  method BuildTemplate(lines: seq<string>) returns (template: string)
    ensures template == Clean(lines)
    ensures NoInnerNewline(lines) ==> Split(template) == StripAll(Kept(lines)) + [""]
    ensures NoInnerNewline(lines) ==> Count(template, NL) == |Kept(lines)|
  {
    template := "";
    var i := 0;
    while i < |lines|
      invariant 0 <= i <= |lines|
      invariant template == Clean(lines[..i])
    {
      var line := lines[i];
      CleanStep(lines, i);
      if !IsComment(line) {
        template := template + (Strip(line) + [NL]);
      } else {
        assert Clean(lines[..i + 1]) == template + "";
      }
      i := i + 1;
    }
    assert lines[..|lines|] == lines;
    TemplateShape(lines);
  }

  lemma {:induction false} TemplateShape(lines: seq<string>)
    ensures NoInnerNewline(lines) ==> Split(Clean(lines)) == StripAll(Kept(lines)) + [""]
    ensures NoInnerNewline(lines) ==> Count(Clean(lines), NL) == |Kept(lines)|
  {
    if NoInnerNewline(lines) {
      SplitClean(lines);
      CleanNewlines(lines);
    }
  }

  /** The template of a prompt file: its stripped non-comment lines, in order, each ended
      by exactly one newline. */
  lemma {:induction false} TemplateOfFile(text: string)
    ensures Split(Clean(FileLines(text))) == StripAll(Kept(FileLines(text))) + [""]
    ensures Count(Clean(FileLines(text)), NL) == |Kept(FileLines(text))|
  {
    var lines := FileLines(text);
    assert NoInnerNewline(lines);
    SplitClean(lines);
    CleanNewlines(lines);
  }

  /** The name the prompt is registered under: `f"{uc_schema}.{prompt_name}"`. */
  function RegisteredName(ucSchema: string, promptName: string): (name: string)
    ensures |name| == |ucSchema| + 1 + |promptName|
    ensures name[..|ucSchema|] == ucSchema && name[|ucSchema|] == '.'
    ensures name[|ucSchema| + 1..] == promptName
  {
    ucSchema + "." + promptName
  }

  /** The dot the name adds is its last dot when the prompt name has none. */
  lemma DotIsLast(ucSchema: string, promptName: string)
    requires '.' !in promptName
    ensures var r := RegisteredName(ucSchema, promptName);
            r[|ucSchema|] == '.' && forall k :: |ucSchema| < k < |r| ==> r[k] != '.'
  {
    var r := RegisteredName(ucSchema, promptName);
    forall k | |ucSchema| < k < |r|
      ensures r[k] != '.'
    {
      assert r[k] == promptName[k - |ucSchema| - 1];
    }
  }

  /** Registered names are unambiguous as long as prompt names have no dot. */
  lemma RegisteredNameInjective(s1: string, n1: string, s2: string, n2: string)
    requires '.' !in n1 && '.' !in n2
    requires RegisteredName(s1, n1) == RegisteredName(s2, n2)
    ensures s1 == s2 && n1 == n2
  {
    var r := RegisteredName(s1, n1);
    DotIsLast(s1, n1);
    DotIsLast(s2, n2);
    if |s1| != |s2| {
      assert false;
    } else {
      assert n1 == r[|r| - |n1|..] == n2;
      assert s1 == r[..|s1|] == s2;
    }
  }
}
