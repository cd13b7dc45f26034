/** What the validators of broker output return is in normal form: each accepts
    its own result and returns it unchanged. */
module SummaryNormalForm {
  import opened Prelude
  import opened SummaryOutput

  // ------------------------------------------------------------- stripping

  lemma {:induction false} RStripIsPrefix(drop: char -> bool, s: string)
    ensures RStripBy(drop, s) <= s
    ensures RStripBy(drop, s) == "" || !drop(RStripBy(drop, s)[|RStripBy(drop, s)| - 1])
  {
    if s != "" && drop(s[|s| - 1]) {
      RStripIsPrefix(drop, s[..|s| - 1]);
    }
  }

  lemma {:induction false} RStripKeeps(drop: char -> bool, s: string, i: nat)
    requires i < |s| && !drop(s[i])
    ensures i < |RStripBy(drop, s)|
  {
    if drop(s[|s| - 1]) {
      RStripKeeps(drop, s[..|s| - 1], i);
    }
  }

  lemma {:induction false} LStripStarts(s: string)
    ensures LStrip(s) == "" || !IsSpace(LStrip(s)[0])
    ensures |LStrip(s)| <= |s| && LStrip(s) == s[|s| - |LStrip(s)|..]
  {
    if s != "" && IsSpace(s[0]) {
      LStripStarts(s[1..]);
    }
  }

  predicate Tight(s: string) {
    s == "" || (!IsSpace(s[0]) && !IsSpace(s[|s| - 1]))
  }

  lemma StripIsTight(s: string)
    ensures Tight(Strip(s))
    ensures forall c <- Strip(s) :: c in s
  {
    LStripStarts(s);
    RStripIsPrefix(c => IsSpace(c), LStrip(s));
  }

  lemma TightStays(s: string)
    requires Tight(s)
    ensures Strip(s) == s
  {
  }

  lemma TrimEndFacts(line: string)
    ensures TrimEnd(line) <= line && TrimEnd(TrimEnd(line)) == TrimEnd(line)
    ensures line != "" && !IsSpace(line[|line| - 1]) ==> TrimEnd(line) == line
    ensures line != "" && !IsSpace(line[0]) ==> TrimEnd(line) != "" && TrimEnd(line)[0] == line[0]
  {
    RStripIsPrefix(c => IsBlank(c), line);
    if line != "" && !IsSpace(line[0]) {
      RStripKeeps(c => IsBlank(c), line, 0);
    }
  }

  // -------------------------------------------------------------- newlines

  lemma {:induction false} NoCarriageReturn(s: string)
    ensures '\r' !in UnixNewlines(s)
    decreases |s|
  {
    if s != "" {
      NoCarriageReturn(s[1..]);
      if |s| > 1 {
        NoCarriageReturn(s[2..]);
      }
    }
  }

  lemma {:induction false} UnixStays(s: string)
    requires '\r' !in s
    ensures UnixNewlines(s) == s
  {
    if s != "" {
      UnixStays(s[1..]);
      assert s == [s[0]] + s[1..];
    }
  }

  lemma {:induction false} JoinOfSplit(s: string)
    ensures Join(SplitLines(s)) == s
    ensures forall line <- SplitLines(s) :: '\n' !in line && forall c <- line :: c in s
  {
    if s != "" {
      JoinOfSplit(s[1..]);
      var rest := SplitLines(s[1..]);
      var lines := SplitLines(s);
      assert s == [s[0]] + s[1..];
      if s[0] == '\n' {
        assert lines[1..] == rest;
      } else {
        assert lines[0] == [s[0]] + rest[0] && lines[1..] == rest[1..];
      }
      forall line <- lines
        ensures '\n' !in line && forall c <- line :: c in s
      {
        assert line == lines[0] || line in lines[1..];
        assert rest[0] in rest;
      }
    }
  }

  lemma {:induction false} SplitOfJoin(lines: seq<string>)
    requires lines != [] && forall line <- lines :: '\n' !in line
    ensures SplitLines(Join(lines)) == lines
    decreases |lines|, |lines[0]|
  {
    var s := Join(lines);
    if lines[0] == "" {
      if |lines| > 1 {
        assert s[1..] == Join(lines[1..]);
        SplitOfJoin(lines[1..]);
      } else {
        assert lines == [""];
      }
    } else {
      var shorter := [lines[0][1..]] + lines[1..];
      assert lines[0] in lines && lines[0] == [lines[0][0]] + shorter[0];
      assert '\n' !in shorter[0];
      assert shorter[1..] == lines[1..];
      assert s[0] == lines[0][0] && s[1..] == Join(shorter);
      SplitOfJoin(shorter);
    }
  }

  lemma {:induction false} JoinEnds(lines: seq<string>)
    requires lines != []
    ensures lines[0] != "" ==> Join(lines) != "" && Join(lines)[0] == lines[0][0]
    ensures lines[0] == "" && |lines| > 1 ==> Join(lines) != "" && Join(lines)[0] == '\n'
    ensures var last := lines[|lines| - 1]; var s := Join(lines);
      && (last != "" ==> s != "" && s[|s| - 1] == last[|last| - 1])
      && (last == "" && |lines| > 1 ==> s != "" && s[|s| - 1] == '\n')
    decreases |lines|
  {
    if |lines| > 1 {
      JoinEnds(lines[1..]);
    }
  }

  lemma {:induction false} JoinChars(lines: seq<string>, c: char)
    requires lines != [] && c in Join(lines) && c != '\n'
    ensures exists line :: line in lines && c in line
    decreases |lines|
  {
    if c in lines[0] {
    } else {
      JoinChars(lines[1..], c);
    }
  }

  // ------------------------------------------------------------------ tags

  const TAGS := ["<think", "</think>"]

  lemma TagHasNoNewline(tag: string, k: nat)
    requires tag in TAGS && k < |tag|
    ensures !FoldsTo('\n', tag[k])
  {
  }

  /** A tag in joined lines is in one of them. */
  lemma {:induction false} TagInOneLine(lines: seq<string>, tag: string)
    requires lines != [] && tag in TAGS && HasTag(Join(lines), tag)
    ensures exists line :: line in lines && HasTag(line, tag)
    decreases |lines|
  {
    var s := Join(lines);
    var at :| 0 <= at <= |s| - |tag| && TagAt(s, tag, at);
    if |lines| == 1 {
      assert HasTag(lines[0], tag);
    } else {
      var n := |lines[0]|;
      var rest := Join(lines[1..]);
      if at + |tag| <= n {
        forall k | 0 <= k < |tag|
          ensures FoldsTo(lines[0][at + k], tag[k])
        {
          assert s[at + k] == lines[0][at + k];
        }
        assert TagAt(lines[0], tag, at);
        assert HasTag(lines[0], tag);
      } else if at > n {
        forall k | 0 <= k < |tag|
          ensures FoldsTo(rest[at - n - 1 + k], tag[k])
        {
          assert s[at + k] == rest[at - n - 1 + k];
        }
        assert TagAt(rest, tag, at - n - 1);
        TagInOneLine(lines[1..], tag);
      } else {
        assert s[n] == '\n';
        TagHasNoNewline(tag, n - at);
        assert false;
      }
    }
  }

  lemma {:induction false} TagInJoin(lines: seq<string>, i: nat, tag: string)
    requires i < |lines| && HasTag(lines[i], tag)
    ensures HasTag(Join(lines), tag)
    decreases |lines|
  {
    var s := Join(lines);
    if i == 0 {
      var at :| 0 <= at <= |lines[0]| - |tag| && TagAt(lines[0], tag, at);
      assert TagAt(s, tag, at);
    } else {
      TagInJoin(lines[1..], i - 1, tag);
      var rest := Join(lines[1..]);
      var at :| 0 <= at <= |rest| - |tag| && TagAt(rest, tag, at);
      var n := |lines[0]| + 1;
      forall k | 0 <= k < |tag|
        ensures FoldsTo(s[at + n + k], tag[k])
      {
        assert s[at + n + k] == rest[at + k];
      }
      assert TagAt(s, tag, at + n);
    }
  }

  lemma TagInPrefix(prefix: string, s: string, tag: string)
    requires prefix <= s && HasTag(prefix, tag)
    ensures HasTag(s, tag)
  {
    var at :| 0 <= at <= |prefix| - |tag| && TagAt(prefix, tag, at);
    assert TagAt(s, tag, at);
  }

  /** Trimming and dropping lines brings no tag about. */
  lemma NoNewTags(s: string, lines: seq<string>, tag: string)
    requires lines != [] && tag in TAGS && !HasTag(s, tag)
    requires forall line <- lines :: exists i :: 0 <= i < |SplitLines(s)| && line == TrimEnd(SplitLines(s)[i])
    ensures !HasTag(Join(lines), tag)
  {
    if HasTag(Join(lines), tag) {
      TagInOneLine(lines, tag);
      var line :| line in lines && HasTag(line, tag);
      var i :| 0 <= i < |SplitLines(s)| && line == TrimEnd(SplitLines(s)[i]);
      TrimEndFacts(SplitLines(s)[i]);
      TagInPrefix(line, SplitLines(s)[i], tag);
      TagInJoin(SplitLines(s), i, tag);
      JoinOfSplit(s);
      assert false;
    }
  }

  // ----------------------------------------------------------- normal form

  /** Trimmed lines of a normalised text whose ends are kept. */
  ghost predicate KeptLines(s: string, lines: seq<string>) {
    && lines != []
    && (forall line <- lines :: exists i :: 0 <= i < |SplitLines(s)| && line == TrimEnd(SplitLines(s)[i]))
    && Tight(Join(lines))
  }

  /** Joining them again is already normalised and splits into the same lines. */
  lemma RejoinedIsNormal(value: string, lines: seq<string>)
    requires KeptLines(Normalize(value), lines)
    ensures Normalize(Join(lines)) == Join(lines) && SplitLines(Join(lines)) == lines
    ensures forall line <- lines :: TrimEnd(line) == line
    ensures !HasReasoning(Normalize(value)) ==> !HasReasoning(Join(lines))
  {
    var s := Normalize(value);
    NoCarriageReturn(value);
    StripIsTight(UnixNewlines(value));
    JoinOfSplit(s);
    forall line <- lines
      ensures '\n' !in line && '\r' !in line && TrimEnd(line) == line
    {
      var i :| 0 <= i < |SplitLines(s)| && line == TrimEnd(SplitLines(s)[i]);
      TrimEndFacts(SplitLines(s)[i]);
      assert SplitLines(s)[i] in SplitLines(s);
    }
    if '\r' in Join(lines) {
      JoinChars(lines, '\r');
      assert false;
    }
    UnixStays(Join(lines));
    TightStays(Join(lines));
    SplitOfJoin(lines);
    if !HasReasoning(s) {
      NoNewTags(s, lines, TAGS[0]);
      NoNewTags(s, lines, TAGS[1]);
    }
  }

  /** The first and the last line of a normalised text keep their outer ends. */
  lemma OuterLines(s: string)
    requires s != "" && Tight(s)
    ensures var lines := SplitLines(s); var first := lines[0]; var last := lines[|lines| - 1];
      && first != "" && !IsSpace(first[0])
      && last != "" && !IsSpace(last[|last| - 1])
  {
    JoinOfSplit(s);
    JoinEnds(SplitLines(s));
  }

  lemma TrimmedLinesKept(s: string)
    requires s != "" && Tight(s)
    ensures KeptLines(s, TrimAll(SplitLines(s)))
  {
    var lines := SplitLines(s);
    var trimmed := TrimAll(lines);
    OuterLines(s);
    TrimEndFacts(lines[0]);
    TrimEndFacts(lines[|lines| - 1]);
    JoinEnds(trimmed);
    forall line <- trimmed
      ensures exists i :: 0 <= i < |lines| && line == TrimEnd(lines[i])
    {
      var i :| 0 <= i < |trimmed| && trimmed[i] == line;
      assert line == TrimEnd(lines[i]);
    }
  }

  /** The full validator returns a fixed point of itself. */
  lemma BrokerOutputIsNormal(value: string)
    ensures var r := ValidateBrokerOutput(value); r.Some? ==> ValidateBrokerOutput(r.value) == r
  {
    if ValidateBrokerOutput(value).Some? {
      AcceptedOutputIsNormal(value);
    }
  }

  lemma AcceptedOutputIsNormal(value: string)
    requires ValidateBrokerOutput(value).Some?
    ensures ValidateBrokerOutput(ValidateBrokerOutput(value).value) == ValidateBrokerOutput(value)
  {
    var s := Normalize(value);
    var lines := TrimAll(SplitLines(s));
    StripIsTight(UnixNewlines(value));
    TrimmedLinesKept(s);
    RejoinedIsNormal(value, lines);
    assert TrimAll(lines) == lines;
    hide Normalize, SectionsOk, HasReasoning, TrimEnd;
    JoinEnds(lines);
    OuterLines(s);
  }

  // --------------------------------------------------------- partial output

  lemma {:induction false} TextLinesFrom(lines: seq<string>)
    ensures forall line <- TextLines(lines) :: exists i :: 0 <= i < |lines| && line == TrimEnd(lines[i])
    decreases |lines|
  {
    if lines != [] {
      TextLinesFrom(lines[1..]);
      forall line <- TextLines(lines)
        ensures exists i :: 0 <= i < |lines| && line == TrimEnd(lines[i])
      {
        if line in TextLines(lines[1..]) {
          var i :| 0 <= i < |lines[1..]| && line == TrimEnd(lines[1..][i]);
          assert line == TrimEnd(lines[i + 1]);
        } else {
          assert line == TrimEnd(lines[0]);
        }
      }
    }
  }

  lemma {:induction false} LastTextLine(lines: seq<string>)
    requires lines != [] && HasText(lines[|lines| - 1])
    ensures TextLines(lines) != []
    ensures TextLines(lines)[|TextLines(lines)| - 1] == TrimEnd(lines[|lines| - 1])
    decreases |lines|
  {
    hide HasText, TrimEnd;
    if |lines| > 1 {
      LastTextLine(lines[1..]);
    } else {
      assert TextLines(lines[1..]) == [];
    }
  }

  lemma {:induction false} TextLinesStay(lines: seq<string>)
    requires forall line <- lines :: HasText(line) && TrimEnd(line) == line
    ensures TextLines(lines) == lines
  {
    hide HasText, TrimEnd;
    if lines != [] {
      TextLinesStay(lines[1..]);
      assert lines == [lines[0]] + lines[1..];
      assert lines[0] in lines;
    }
  }

  /** A line with a character that is no space at either end has text. */
  lemma EndsHaveText(line: string)
    requires line != "" && (!IsSpace(line[0]) || !IsSpace(line[|line| - 1]))
    ensures HasText(line)
  {
    LStripStarts(line);
    var left := LStrip(line);
    if !IsSpace(line[0]) {
      RStripKeeps(c => IsSpace(c), left, 0);
    } else {
      LStripKeeps(line, |line| - 1);
      assert left[|left| - 1] == line[|line| - 1];
      RStripKeeps(c => IsSpace(c), left, |left| - 1);
    }
  }

  lemma {:induction false} LStripKeeps(s: string, i: nat)
    requires i < |s| && !IsSpace(s[i])
    ensures LStrip(s) != ""
  {
    if IsSpace(s[0]) {
      LStripKeeps(s[1..], i - 1);
    }
  }

  lemma BulletHasText(line: string)
    requires BulletLine(line)
    ensures line != "" && !IsSpace(line[0]) && HasText(line)
  {
    assert line[0] == BULLET[0];
    EndsHaveText(line);
  }

  lemma TextLinesKept(s: string)
    requires s != "" && Tight(s) && forall line <- TextLines(SplitLines(s)) :: BulletLine(line)
    ensures KeptLines(s, TextLines(SplitLines(s)))
  {
    var lines := SplitLines(s);
    var kept := TextLines(lines);
    var last := lines[|lines| - 1];
    OuterLines(s);
    EndsHaveText(last);
    TrimEndFacts(last);
    LastTextLine(lines);
    TextLinesFrom(lines);
    BulletHasText(kept[0]);
    JoinEnds(kept);
    hide TextLines, SplitLines, TrimEnd, BulletLine, HasText, IsSpace;
  }

  lemma NothingFromNothing()
    ensures TextLines(SplitLines("")) == []
  {
    assert !HasText("");
  }

  /** The partial validator returns a fixed point of itself. */
  lemma BrokerPartialOutputIsNormal(value: string)
    ensures var r := ValidateBrokerPartialOutput(value); r.Some? ==> ValidateBrokerPartialOutput(r.value) == r
  {
    if ValidateBrokerPartialOutput(value).Some? {
      AcceptedPartialOutputIsNormal(value);
    }
  }

  lemma AcceptedPartialOutputIsNormal(value: string)
    requires ValidateBrokerPartialOutput(value).Some?
    ensures ValidateBrokerPartialOutput(ValidateBrokerPartialOutput(value).value) == ValidateBrokerPartialOutput(value)
  {
    var s := Normalize(value);
    var lines := TextLines(SplitLines(s));
    StripIsTight(UnixNewlines(value));
    NothingFromNothing();
    TextLinesKept(s);
    RejoinedIsNormal(value, lines);
    forall line <- lines
      ensures HasText(line)
    {
      BulletHasText(line);
    }
    TextLinesStay(lines);
    hide Normalize, HasReasoning, TrimEnd, BulletLine;
  }
}
