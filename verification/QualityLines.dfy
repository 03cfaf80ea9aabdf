/** wrapQualityLines of tools/pprof-flamegraph/quality.go: lines are wrapped to a
    width, and no character of a word gets lost, however narrow the chart is. */
module QualityLines {
  /** The columns of a chart `width` pixels wide. */
  function Columns(width: int): (n: nat)
    ensures n >= 1
  {
    if width - 20 < 7 then 1 else (width - 20) / 7
  }

  /** The white space of ASCII. */
  predicate Blank(c: char) { c == ' ' || 9 <= c as int <= 13 }

  /** A line without its blanks. */
  function Ink(s: string): string {
    if s == [] then [] else Ink(s[..|s| - 1]) + (if Blank(s[|s| - 1]) then [] else [s[|s| - 1]])
  }

  function AllInk(lines: seq<string>): string {
    if lines == [] then [] else AllInk(lines[..|lines| - 1]) + Ink(lines[|lines| - 1])
  }

  lemma {:induction false} InkConcat(a: string, b: string)
    ensures Ink(a + b) == Ink(a) + Ink(b)
  {
    if b == [] {
      assert a + b == a;
    } else {
      assert (a + b)[..|a + b| - 1] == a + b[..|b| - 1];
      InkConcat(a, b[..|b| - 1]);
    }
  }

  lemma AllInkMore(lines: seq<string>, line: string)
    ensures AllInk(lines + [line]) == AllInk(lines) + Ink(line)
  {
    assert (lines + [line])[..|lines|] == lines;
  }

  lemma BlankHasNoInk(c: char)
    requires Blank(c)
    ensures Ink([c]) == []
  {
    assert [c][..0] == "";
  }

  /** strings.Fields, for ASCII lines. `word` is the word being read. */
  function Fields(line: string, word: string): (r: seq<string>)
    ensures forall i: nat :: i < |r| ==> r[i] != ""
    decreases |line|
  {
    if line == "" then (if word == "" then [] else [word])
    else if Blank(line[0]) then (if word == "" then [] else [word]) + Fields(line[1..], "")
    else Fields(line[1..], word + [line[0]])
  }

  function Joined(words: seq<string>): string {
    if words == [] then "" else Ink(words[0]) + Joined(words[1..])
  }

  lemma JoinedFirst(word: string, words: seq<string>)
    ensures Joined((if word == "" then [] else [word]) + words) == Ink(word) + Joined(words)
  {
    if word == "" {
      assert [] + words == words;
      assert Ink(word) + Joined(words) == Joined(words);
    } else {
      assert ([word] + words)[1..] == words;
    }
  }

  lemma BlankAdds(word: string, c: char)
    requires Blank(c)
    ensures Ink(word + [c]) == Ink(word)
  {
    InkConcat(word, [c]);
    BlankHasNoInk(c);
  }

  /** Splitting a line keeps its ink. */
  lemma {:induction false} FieldsKeepInk(line: string, word: string)
    ensures Joined(Fields(line, word)) == Ink(word + line)
    decreases |line|
  {
    if line == "" {
      assert word + line == word;
      JoinedFirst(word, []);
      assert (if word == "" then [] else [word]) + [] == Fields(line, word);
    } else {
      assert word + line == (word + [line[0]]) + line[1..];
      if Blank(line[0]) {
        BlankAdds(word, line[0]);
        InkConcat(word + [line[0]], line[1..]);
        FieldsKeepInk(line[1..], "");
        assert "" + line[1..] == line[1..];
        JoinedFirst(word, Fields(line[1..], ""));
      } else {
        FieldsKeepInk(line[1..], word + [line[0]]);
      }
    }
  }

  lemma {:induction false} JoinedMore(words: seq<string>, word: string)
    ensures Joined(words + [word]) == Joined(words) + Ink(word)
  {
    if words == [] {
      assert words + [word] == [word] && [word][1..] == [];
      assert Joined([word]) == Ink(word) + Joined([]);
    } else {
      assert (words + [word])[1..] == words[1..] + [word];
      JoinedMore(words[1..], word);
    }
  }

  /** Every line fits, and none is empty. */
  ghost predicate Fit(wrapped: seq<string>, columns: nat) {
    forall i: nat :: i < |wrapped| ==> 0 < |wrapped[i]| <= columns
  }

  /** What has been written, the current line included. */
  function Written(wrapped: seq<string>, line: string): string { AllInk(wrapped) + Ink(line) }

  lemma LineDone(wrapped: seq<string>, line: string)
    ensures Written(wrapped + [line], "") == Written(wrapped, line)
  {
    AllInkMore(wrapped, line);
  }

  lemma WordBroken(wrapped: seq<string>, word: string, columns: nat)
    requires columns <= |word|
    ensures Written(wrapped + [word[..columns]], word[columns..]) == Written(wrapped, word)
  {
    assert word == word[..columns] + word[columns..];
    InkConcat(word[..columns], word[columns..]);
    AllInkMore(wrapped, word[..columns]);
  }

  lemma WordAdded(wrapped: seq<string>, line: string, word: string)
    ensures Written(wrapped, line + " " + word) == Written(wrapped, line) + Ink(word)
  {
    var blank: string := [' '];
    assert line + " " + word == (line + blank) + word;
    BlankAdds(line, ' ');
    InkConcat(line + blank, word);
    Associate(AllInk(wrapped), Ink(line), Ink(word));
  }

  lemma FirstWord(wrapped: seq<string>, word: string)
    ensures Written(wrapped, word) == Written(wrapped, "") + Ink(word)
  {
  }

  /** The hard breaks of a word that is longer than a line. */
  method BreakWord(wrapped: seq<string>, word: string, columns: nat) returns (lines: seq<string>, rest: string)
    requires columns >= 1 && Fit(wrapped, columns) && word != ""
    ensures Fit(lines, columns) && 0 < |rest| <= columns
    ensures Written(lines, rest) == Written(wrapped, word)
    ensures |word| <= columns ==> lines == wrapped && rest == word
  {
    lines, rest := wrapped, word;
    while |rest| > columns
      invariant Fit(lines, columns) && 0 < |rest|
      invariant Written(lines, rest) == Written(wrapped, word)
      invariant |word| <= columns ==> lines == wrapped && rest == word
      decreases |rest|
    {
      WordBroken(lines, rest, columns);
      lines, rest := lines + [rest[..columns]], rest[columns..];
    }
  }

  /** One word more on the current line, or on a new one. */
  method PutWord(wrapped: seq<string>, current: string, word: string, columns: nat)
    returns (lines: seq<string>, line: string)
    requires columns >= 1 && Fit(wrapped, columns) && |current| <= columns && word != ""
    ensures Fit(lines, columns) && 0 < |line| <= columns
    ensures Written(lines, line) == Written(wrapped, current) + Ink(word)
  {
    lines, line := wrapped, current;
    if line != "" && |line| + 1 + |word| > columns {
      LineDone(lines, line);
      lines, line := lines + [line], "";
    }
    WordAdded(lines, line, word);
    FirstWord(lines, word);
    var rest;
    lines, rest := BreakWord(lines, word, columns);
    if line != "" {
      line := line + " ";
    } else {
      assert "" + rest == rest;
    }
    line := line + rest;
  }

  /** The words of one line, put one after the other. */
  method WrapLine(wrapped: seq<string>, line: string, columns: nat) returns (lines: seq<string>)
    requires columns >= 1 && Fit(wrapped, columns)
    ensures Fit(lines, columns) && AllInk(lines) == AllInk(wrapped) + Ink(line)
  {
    var words := Fields(line, "");
    FieldsKeepInk(line, "");
    assert "" + line == line;
    var current;
    lines, current := PutWords(wrapped, words, columns);
    Closed(lines, current);
    if |current| != 0 {
      FitMore(lines, current, columns);
      lines := lines + [current];
    }
  }

  lemma FitMore(wrapped: seq<string>, line: string, columns: nat)
    requires Fit(wrapped, columns) && 0 < |line| <= columns
    ensures Fit(wrapped + [line], columns)
  {
  }

  lemma Closed(wrapped: seq<string>, current: string)
    ensures AllInk(if |current| != 0 then wrapped + [current] else wrapped) == Written(wrapped, current)
  {
    if |current| != 0 {
      AllInkMore(wrapped, current);
    }
  }

  method PutWords(wrapped: seq<string>, words: seq<string>, columns: nat) returns (lines: seq<string>, current: string)
    requires columns >= 1 && Fit(wrapped, columns) && forall i: nat :: i < |words| ==> words[i] != ""
    ensures Fit(lines, columns) && |current| <= columns
    ensures Written(lines, current) == AllInk(wrapped) + Joined(words)
  {
    lines, current := wrapped, "";
    ghost var start := AllInk(wrapped);
    for j := 0 to |words|
      invariant Fit(lines, columns) && |current| <= columns
      invariant Written(lines, current) == start + Joined(words[..j])
    {
      ghost var before := Joined(words[..j]);
      JoinedMore(words[..j], words[j]);
      assert words[..j + 1] == words[..j] + [words[j]];
      lines, current := PutWord(lines, current, words[j], columns);
      Associate(start, before, Ink(words[j]));
    }
    assert words[..|words|] == words;
  }

  lemma Associate(a: string, b: string, c: string)
    ensures (a + b) + c == a + (b + c)
  {
  }

  /** wrapQualityLines. */
  method Wrap(lines: seq<string>, width: int) returns (wrapped: seq<string>)
    ensures Fit(wrapped, Columns(width))
    ensures AllInk(wrapped) == AllInk(lines)
  {
    wrapped := [];
    for i := 0 to |lines|
      invariant Fit(wrapped, Columns(width)) && AllInk(wrapped) == AllInk(lines[..i])
    {
      assert lines[..i + 1][..i] == lines[..i];
      wrapped := WrapLine(wrapped, lines[i], Columns(width));
    }
    assert lines[..|lines|] == lines;
  }
}
