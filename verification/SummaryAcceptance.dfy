/**
 Which texts from the broker are accepted, by a grammar of the lines, and that
 accepting a text changes nothing but white space (app/services/broker_summary.py).
 */
module SummaryAcceptance {
  import opened Prelude
  import opened SummaryOutput
  import opened SummaryNormalForm

  // ------------------------------------------------------------------- ink

  /** The characters that are no white space. */
  function Ink(s: string): string {
    if s == "" then "" else (if IsSpace(s[0]) then "" else [s[0]]) + Ink(s[1..])
  }

  lemma {:induction false} InkOfSum(a: string, b: string)
    ensures Ink(a + b) == Ink(a) + Ink(b)
  {
    if a == "" {
      assert a + b == b;
    } else {
      assert (a + b)[1..] == a[1..] + b;
      InkOfSum(a[1..], b);
    }
  }

  lemma InkOfOne(c: char)
    ensures Ink([c]) == if IsSpace(c) then "" else [c]
  {
    assert [c][1..] == "";
  }

  lemma {:induction false} InkOfLStrip(s: string)
    ensures Ink(LStrip(s)) == Ink(s)
  {
    if s != "" && IsSpace(s[0]) {
      InkOfLStrip(s[1..]);
    }
  }

  lemma {:induction false} InkOfRStrip(drop: char -> bool, s: string)
    requires forall c :: drop(c) ==> IsSpace(c)
    ensures Ink(RStripBy(drop, s)) == Ink(s)
  {
    if s != "" && drop(s[|s| - 1]) {
      var front, last := s[..|s| - 1], s[|s| - 1];
      InkOfRStrip(drop, front);
      InkOfSum(front, [last]);
      InkOfOne(last);
      assert s == front + [last];
    }
  }

  lemma InkOfTrimEnd(line: string)
    ensures Ink(TrimEnd(line)) == Ink(line)
  {
    InkOfRStrip(c => IsBlank(c), line);
  }

  lemma InkOfStrip(s: string)
    ensures Ink(Strip(s)) == Ink(s)
  {
    InkOfLStrip(s);
    InkOfRStrip(c => IsSpace(c), LStrip(s));
  }

  lemma {:induction false} InkOfUnixNewlines(s: string)
    ensures Ink(UnixNewlines(s)) == Ink(s)
    decreases |s|
  {
    if s != "" {
      var n := if s[0] == '\r' && |s| > 1 && s[1] == '\n' then 2 else 1;
      InkOfUnixNewlines(s[n..]);
      if s[0] == '\r' {
        var rest := UnixNewlines(s[n..]);
        assert UnixNewlines(s) == "\n" + rest;
        InkOfSum("\n", rest);
        InkOfOne('\n');
        if n == 2 {
          assert s[1..][1..] == s[2..];
        }
      } else {
        InkOfSum([s[0]], UnixNewlines(s[1..]));
        InkOfOne(s[0]);
      }
    }
  }

  lemma InkOfNormalize(value: string)
    ensures Ink(Normalize(value)) == Ink(value)
  {
    InkOfUnixNewlines(value);
    InkOfStrip(UnixNewlines(value));
  }

  lemma InkIsText(line: string)
    ensures HasText(line) <==> Ink(line) != ""
  {
    InkOfStrip(line);
    StripIsTight(line);
  }

  function InkOfLines(lines: seq<string>): string {
    if lines == [] then "" else Ink(lines[0]) + InkOfLines(lines[1..])
  }

  lemma {:induction false} InkOfJoin(lines: seq<string>)
    requires lines != []
    ensures Ink(Join(lines)) == InkOfLines(lines)
    decreases |lines|
  {
    if |lines| == 1 {
      assert InkOfLines(lines[1..]) == "";
    } else {
      InkOfJoin(lines[1..]);
      InkOfSum(lines[0] + "\n", Join(lines[1..]));
      InkOfSum(lines[0], "\n");
      InkOfOne('\n');
    }
  }

  lemma {:induction false} InkOfTrimAll(lines: seq<string>)
    ensures InkOfLines(TrimAll(lines)) == InkOfLines(lines)
  {
    if lines != [] {
      assert TrimAll(lines)[1..] == TrimAll(lines[1..]);
      InkOfTrimAll(lines[1..]);
      InkOfTrimEnd(lines[0]);
    }
  }

  lemma {:induction false} InkOfTextLines(lines: seq<string>)
    ensures InkOfLines(TextLines(lines)) == InkOfLines(lines)
  {
    if lines != [] {
      InkOfTextLines(lines[1..]);
      InkIsText(lines[0]);
      InkOfTrimEnd(lines[0]);
      hide HasText, TrimEnd;
      if HasText(lines[0]) {
        assert TextLines(lines) == [TrimEnd(lines[0])] + TextLines(lines[1..]);
        assert TextLines(lines)[1..] == TextLines(lines[1..]);
      } else {
        assert TextLines(lines) == TextLines(lines[1..]);
      }
    }
  }

  /** What either validator returns has the characters of the broker's text, all
      of them and in order, but for white space. */
  lemma ValidationKeepsInk(value: string)
    ensures ValidateBrokerOutput(value).Some? ==> Ink(ValidateBrokerOutput(value).value) == Ink(value)
    ensures ValidateBrokerPartialOutput(value).Some? ==> Ink(ValidateBrokerPartialOutput(value).value) == Ink(value)
  {
    var s := Normalize(value);
    var lines := SplitLines(s);
    InkOfNormalize(value);
    JoinOfSplit(s);
    InkOfJoin(lines);
    InkOfTrimAll(lines);
    InkOfJoin(TrimAll(lines));
    InkOfTextLines(lines);
    if TextLines(lines) != [] {
      InkOfJoin(TextLines(lines));
    }
    hide Normalize, SplitLines, TrimAll, TextLines, Join, SectionsOk, HasReasoning, BulletLine;
  }

  // --------------------------------------------------------- partial output

  /** A bullet with something behind it. */
  predicate Bullet(line: string) {
    line != "" && line[0] == '•' && Ink(line[1..]) != ""
  }

  /** No reasoning tag, in any case. */
  predicate NoTags(s: string) {
    && (forall at :: 0 <= at <= |s| - 6 ==> !TagAt(s, "<think", at))
    && (forall at :: 0 <= at <= |s| - 8 ==> !TagAt(s, "</think>", at))
  }

  lemma NoTagsIff(s: string)
    ensures NoTags(s) <==> !HasReasoning(s)
  {
    hide TagAt;
  }

  lemma TrimmedBullet(line: string)
    ensures BulletLine(TrimEnd(line)) <==> Bullet(line)
  {
    var trimmed := TrimEnd(line);
    TrimEndFacts(line);
    InkOfTrimEnd(line);
    assert BULLET == ['•'];
    if line != "" && line[0] == '•' {
      assert trimmed != "" && trimmed[0] == '•';
      assert trimmed == ['•'] + trimmed[1..] && line == ['•'] + line[1..];
      InkOfSum(['•'], trimmed[1..]);
      InkOfSum(['•'], line[1..]);
      InkIsText(trimmed[1..]);
    }
    hide TrimEnd, HasText;
  }

  lemma {:induction false} TextLinesAre(lines: seq<string>)
    ensures TextLines(lines) != [] <==> exists line :: line in lines && Ink(line) != ""
    ensures (forall line <- TextLines(lines) :: BulletLine(line)) <==>
      (forall line <- lines :: Ink(line) != "" ==> Bullet(line))
  {
    hide TrimEnd, HasText, Ink, BulletLine, Bullet;
    if lines != [] {
      TextLinesAre(lines[1..]);
      InkIsText(lines[0]);
      TrimmedBullet(lines[0]);
      assert lines == [lines[0]] + lines[1..];
      var first := if HasText(lines[0]) then [TrimEnd(lines[0])] else [];
      assert TextLines(lines) == first + TextLines(lines[1..]);
    }
  }

  /** A partial output is accepted exactly if it has a line with text, every such
      line is a bullet with text, and there is no reasoning tag. */
  lemma PartialAcceptedIff(value: string)
    ensures var s := Normalize(value);
      ValidateBrokerPartialOutput(value).Some? <==>
        && (exists line :: line in SplitLines(s) && Ink(line) != "")
        && (forall line <- SplitLines(s) :: Ink(line) != "" ==> Bullet(line))
        && NoTags(s)
  {
    TextLinesAre(SplitLines(Normalize(value)));
    NoTagsIff(Normalize(value));
    hide Normalize, SplitLines, TextLines, Join, HasReasoning, BulletLine, Ink, Bullet, NoTags;
  }

  // ------------------------------------------------------------ full output

  predicate Heading(line: string) {
    line == "RESUMEN" || line == "PUNTOS CLAVE" || line == "CONCLUSIÓN"
  }

  predicate Without(lines: seq<string>, x: string, y: string, z: string) {
    x !in lines && y !in lines && z !in lines
  }

  /** The lines before, between and after three headings, the last one optional. */
  ghost predicate Divided(
    lines: seq<string>, x: string, y: string, z: string,
    intro: seq<string>, body: seq<string>, points: seq<string>, closing: Option<seq<string>>
  ) {
    && lines == intro + [x] + body + [y] + points + (if closing.Some? then [z] + closing.value else [])
    && Without(intro, x, y, z)
    && Without(body, x, y, z)
    && Without(points, x, y, z)
    && (closing.Some? ==> Without(closing.value, x, y, z))
  }

  ghost predicate SomeText(lines: seq<string>) {
    exists line :: line in lines && Ink(line) != ""
  }

  /** No mark-up, and no line in capitals but the headings. */
  predicate Plain(line: string) {
    var s := LStrip(line);
    && !("#" <= s) && !("```" <= s) && !("~~~" <= s) && !("1. " <= s) && !("1) " <= s)
    && (line != "" && !Heading(line) ==> exists c <- line :: !('A' <= c <= 'Z') && c !in "ÁÉÍÓÚÜÑ ")
  }

  /** The three sections in order, the last one optional; the points are bullets. */
  ghost predicate Sections(
    lines: seq<string>, intro: seq<string>, body: seq<string>, points: seq<string>, closing: Option<seq<string>>
  ) {
    && Divided(lines, "RESUMEN", "PUNTOS CLAVE", "CONCLUSIÓN", intro, body, points, closing)
    && (closing.Some? ==> SomeText(closing.value))
    && SomeText(body)
    && SomeText(points)
    && forall line <- points :: Ink(line) != "" ==> Bullet(line)
  }

  ghost predicate Report(lines: seq<string>) {
    && (forall line <- lines :: Plain(line))
    && exists intro, body, points, closing :: Sections(lines, intro, body, points, closing)
  }

  lemma PlainIff(line: string)
    ensures Plain(line) <==> !Markdown(line) && !ShoutedLine(line)
  {
    hide LStrip;
    assert line in HEADINGS <==> Heading(line);
    if !ShoutedLine(line) && line != "" && !Heading(line) {
      var c :| c in line && !IsCapital(c);
    }
  }

  lemma {:induction false} CountOfSum(a: seq<string>, b: seq<string>, h: string)
    ensures Count(a + b, h) == Count(a, h) + Count(b, h)
  {
    if a == [] {
      assert a + b == b;
    } else {
      assert (a + b)[1..] == a[1..] + b;
      CountOfSum(a[1..], b, h);
    }
  }

  lemma {:induction false} CountIsZeroIff(a: seq<string>, h: string)
    ensures Count(a, h) == 0 <==> h !in a
  {
    if a != [] {
      CountIsZeroIff(a[1..], h);
      assert a == [a[0]] + a[1..];
    }
  }

  lemma CountOfOne(x: string, h: string)
    ensures Count([x], h) == if x == h then 1 else 0
  {
    assert [x][1..] == [];
  }

  /** Where a line that occurs once is found. */
  lemma {:induction false} IndexOfMiddle(a: seq<string>, h: string, b: seq<string>)
    requires h !in a
    ensures IndexOf(a + [h] + b, h) == |a|
  {
    var all := a + [h] + b;
    if a != [] {
      assert all[1..] == a[1..] + [h] + b;
      IndexOfMiddle(a[1..], h, b);
    }
  }

  lemma CountOfMiddle(a: seq<string>, x: string, b: seq<string>, h: string)
    ensures Count(a + [x] + b, h) == Count(a, h) + (if x == h then 1 else 0) + Count(b, h)
  {
    CountOfSum(a + [x], b, h);
    CountOfSum(a, [x], h);
    CountOfOne(x, h);
  }

  /** A line that occurs at most once occurs nowhere else. */
  lemma SplitAtOnly(lines: seq<string>, h: string, i: nat)
    requires i < |lines| && lines[i] == h && Count(lines, h) <= 1
    ensures lines == lines[..i] + [h] + lines[i + 1..]
    ensures h !in lines[..i] && h !in lines[i + 1..] && Count(lines, h) == 1
  {
    assert lines == lines[..i] + [h] + lines[i + 1..];
    CountOfMiddle(lines[..i], h, lines[i + 1..], h);
    CountIsZeroIff(lines[..i], h);
    CountIsZeroIff(lines[i + 1..], h);
  }

  lemma TextIsInk(lines: seq<string>)
    ensures (exists line :: line in lines && HasText(line)) <==> SomeText(lines)
    ensures (forall line :: line in lines && HasText(line) ==> BulletLine(line)) <==>
      (forall line <- lines :: Ink(line) != "" ==> Bullet(line))
  {
    forall line | line in lines
      ensures HasText(line) <==> Ink(line) != ""
      ensures BulletLine(line) <==> Bullet(line)
    {
      InkIsText(line);
      LineIsBullet(line);
    }
    hide HasText, Ink, BulletLine, Bullet;
  }

  lemma LineIsBullet(line: string)
    ensures BulletLine(line) <==> Bullet(line)
  {
    assert BULLET == ['•'];
    if line != "" {
      InkIsText(line[1..]);
    }
    hide HasText;
  }

  function After(lines: seq<string>, n: nat): Option<seq<string>>
    requires n <= |lines|
  {
    if n < |lines| then Some(lines[n + 1..]) else None
  }

  lemma SumOfSlices(lines: seq<string>, i: nat, j: nat, k: nat)
    requires i < j < k <= |lines|
    ensures lines == lines[..i] + [lines[i]] + lines[i + 1..j] + [lines[j]] + lines[j + 1..k]
      + (if k < |lines| then [lines[k]] + lines[k + 1..] else [])
  {
  }

  /** A heading that stands at one place is not in a slice without that place. */
  lemma Apart(lines: seq<string>, h: string, at: nat, lo: nat, hi: nat)
    requires at < |lines| && lo <= hi <= |lines| && (hi <= at || at < lo) && lines[at] == h && Count(lines, h) <= 1
    ensures h !in lines[lo..hi]
  {
    SplitAtOnly(lines, h, at);
    hide Count;
    if hi <= at {
      assert forall i :: lo <= i < hi ==> lines[i] == lines[..at][i];
    } else {
      assert forall i :: lo <= i < hi ==> lines[i] == lines[at + 1..][i - at - 1];
    }
  }

  lemma Absent(lines: seq<string>, h: string, lo: nat, hi: nat)
    requires h !in lines && lo <= hi <= |lines|
    ensures h !in lines[lo..hi]
  {
  }

  /** A slice beside the headings that stand at these places. */
  lemma SliceWithout(
    lines: seq<string>, x: string, y: string, z: string, i: nat, j: nat, k: nat, lo: nat, hi: nat
  )
    requires i < j < k <= |lines| && lines[i] == x && lines[j] == y && (k < |lines| ==> lines[k] == z)
    requires Count(lines, x) <= 1 && Count(lines, y) <= 1 && Count(lines, z) <= 1
    requires k == |lines| ==> z !in lines
    requires lo <= hi <= |lines| && (hi <= i || (i < lo && hi <= j) || (j < lo && hi <= k) || k < lo)
    ensures Without(lines[lo..hi], x, y, z)
  {
    hide Count;
    Apart(lines, x, i, lo, hi);
    Apart(lines, y, j, lo, hi);
    if k < |lines| {
      Apart(lines, z, k, lo, hi);
    } else {
      Absent(lines, z, lo, hi);
    }
  }

  /** The parts of the lines around three headings that stand in this order. */
  lemma PartsOf(lines: seq<string>, x: string, y: string, z: string, i: nat, j: nat, k: nat)
    requires i < j < k <= |lines|
    requires i == IndexOf(lines, x) && j == IndexOf(lines, y) && k == IndexOf(lines, z)
    requires Count(lines, x) == 1 && Count(lines, y) == 1 && Count(lines, z) <= 1
    ensures Divided(lines, x, y, z, lines[..i], lines[i + 1..j], lines[j + 1..k], After(lines, k))
  {
    hide Count, IndexOf, Without;
    Found(lines, x);
    Found(lines, y);
    Found(lines, z);
    SumOfSlices(lines, i, j, k);
    SlicesWithout(lines, x, y, z, i, j, k);
  }

  lemma SlicesWithout(lines: seq<string>, x: string, y: string, z: string, i: nat, j: nat, k: nat)
    requires i < j < k <= |lines| && lines[i] == x && lines[j] == y && (k < |lines| ==> lines[k] == z)
    requires Count(lines, x) <= 1 && Count(lines, y) <= 1 && Count(lines, z) <= 1
    requires k == |lines| ==> z !in lines
    ensures Without(lines[..i], x, y, z) && Without(lines[i + 1..j], x, y, z) && Without(lines[j + 1..k], x, y, z)
    ensures k < |lines| ==> Without(lines[k + 1..], x, y, z)
  {
    hide Count, Without;
    SliceWithout(lines, x, y, z, i, j, k, 0, i);
    assert lines[0..i] == lines[..i];
    SliceWithout(lines, x, y, z, i, j, k, i + 1, j);
    SliceWithout(lines, x, y, z, i, j, k, j + 1, k);
    if k < |lines| {
      SliceWithout(lines, x, y, z, i, j, k, k + 1, |lines|);
      assert lines[k + 1..|lines|] == lines[k + 1..];
    }
  }

  lemma Found(lines: seq<string>, h: string)
    ensures IndexOf(lines, h) <= |lines|
    ensures IndexOf(lines, h) < |lines| ==> lines[IndexOf(lines, h)] == h
    ensures IndexOf(lines, h) == |lines| ==> h !in lines
  {
  }

  /** Where a heading stands that occurs nowhere else. */
  lemma HeadingStands(front: seq<string>, h: string, back: seq<string>)
    requires h !in front && h !in back
    ensures Count(front + [h] + back, h) == 1 && IndexOf(front + [h] + back, h) == |front|
  {
    CountOfMiddle(front, h, back, h);
    CountIsZeroIff(front, h);
    CountIsZeroIff(back, h);
    IndexOfMiddle(front, h, back);
  }

  lemma NotInSum(h: string, a: seq<string>, x: string, b: seq<string>)
    requires h !in a && h != x && h !in b
    ensures h !in a + [x] + b && a + [x] + b == a + ([x] + b)
  {
  }

  /** The headings of divided lines are found at their sections. */
  lemma HeadingsStand(
    x: string, y: string, z: string, intro: seq<string>, body: seq<string>, points: seq<string>, rest: seq<string>
  )
    requires x != y && Without(intro, x, y, z) && Without(body, x, y, z) && Without(points, x, y, z)
    requires x !in rest && y !in rest
    ensures var lines := intro + [x] + body + [y] + points + rest;
      && Count(lines, x) == 1 && IndexOf(lines, x) == |intro|
      && Count(lines, y) == 1 && IndexOf(lines, y) == |intro| + 1 + |body|
  {
    hide Count, IndexOf;
    var lines, before, end := intro + [x] + body + [y] + points + rest, intro + [x] + body, points + rest;
    NotInSum(x, body, y, end);
    HeadingStands(intro, x, body + [y] + end);
    NotInSum(y, intro, x, body);
    HeadingStands(before, y, end);
    assert lines == intro + [x] + (body + [y] + end);
    assert lines == before + [y] + end;
  }

  lemma LastHeadingStands(front: seq<string>, z: string, closing: Option<seq<string>>)
    requires z !in front && (closing.Some? ==> z !in closing.value)
    ensures var lines := front + (if closing.Some? then [z] + closing.value else []);
      && IndexOf(lines, z) == |front|
      && Count(lines, z) <= 1
      && closing == After(lines, |front|)
  {
    var lines := front + (if closing.Some? then [z] + closing.value else []);
    if closing.Some? {
      HeadingStands(front, z, closing.value);
      assert lines == front + [z] + closing.value;
      assert lines[|front| + 1..] == closing.value;
    } else {
      CountIsZeroIff(lines, z);
    }
  }

  lemma DividedStand(
    lines: seq<string>, x: string, y: string, z: string,
    intro: seq<string>, body: seq<string>, points: seq<string>, closing: Option<seq<string>>
  )
    requires x != y && y != z && x != z && Divided(lines, x, y, z, intro, body, points, closing)
    ensures Count(lines, x) == 1 && IndexOf(lines, x) == |intro|
    ensures Count(lines, y) == 1 && IndexOf(lines, y) == |intro| + 1 + |body|
    ensures var n := |intro| + 1 + |body| + 1 + |points|;
      && n <= |lines|
      && IndexOf(lines, z) == n
      && Count(lines, z) <= 1
      && lines[|intro| + 1..|intro| + 1 + |body|] == body
      && lines[|intro| + 1 + |body| + 1..n] == points
      && closing == After(lines, n)
  {
    hide Count, IndexOf, After;
    var rest := if closing.Some? then [z] + closing.value else [];
    var front := intro + [x] + body + [y] + points;
    assert lines == intro + [x] + body + [y] + points + rest;
    assert x !in rest && y !in rest;
    HeadingsStand(x, y, z, intro, body, points, rest);
    NotInSum(z, intro, x, body);
    NotInSum(z, intro + [x] + body, y, points);
    LastHeadingStands(front, z, closing);
    assert |front| == |intro| + 1 + |body| + 1 + |points|;
    SlicesOf(intro, x, body, y, points, rest);
  }

  lemma SlicesOf(a: seq<string>, x: string, b: seq<string>, y: string, c: seq<string>, rest: seq<string>)
    ensures var lines := a + [x] + b + [y] + c + rest; var p := |a| + 1 + |b|;
      && lines[|a| + 1..p] == b
      && lines[p + 1..p + 1 + |c|] == c
      && lines[p + 1 + |c|..] == rest
  {
  }

  lemma HeadingsDiffer()
    ensures "RESUMEN" != "PUNTOS CLAVE" && "PUNTOS CLAVE" != "CONCLUSIÓN" && "RESUMEN" != "CONCLUSIÓN"
  {
  }

  lemma AcceptedIsReport(lines: seq<string>)
    requires SectionsOk(lines)
    ensures Report(lines)
  {
    hide Count, IndexOf, HasText, Ink, BulletLine, Bullet, Plain, SomeText, Divided, Markdown, ShoutedLine;
    var s, p, c := IndexOf(lines, HEADINGS[0]), IndexOf(lines, HEADINGS[1]), IndexOf(lines, HEADINGS[2]);
    HeadingsDiffer();
    Found(lines, HEADINGS[2]);
    PartsOf(lines, "RESUMEN", "PUNTOS CLAVE", "CONCLUSIÓN", s, p, c);
    TextIsInk(lines[s + 1..p]);
    TextIsInk(lines[p + 1..c]);
    if c < |lines| {
      TextIsInk(lines[c + 1..]);
    }
    forall line | line in lines
      ensures Plain(line)
    {
      PlainIff(line);
    }
    assert Sections(lines, lines[..s], lines[s + 1..p], lines[p + 1..c], After(lines, c));
  }

  lemma ReportIsAccepted(lines: seq<string>)
    requires Report(lines)
    ensures SectionsOk(lines)
  {
    hide Count, IndexOf, HasText, Ink, BulletLine, Bullet, Plain, Markdown, ShoutedLine, SomeText, Divided;
    var intro, body, points, closing :| Sections(lines, intro, body, points, closing);
    HeadingsDiffer();
    DividedStand(lines, "RESUMEN", "PUNTOS CLAVE", "CONCLUSIÓN", intro, body, points, closing);
    TextIsInk(body);
    TextIsInk(points);
    if closing.Some? {
      TextIsInk(closing.value);
    }
    forall line | line in lines
      ensures !Markdown(line) && !ShoutedLine(line)
    {
      PlainIff(line);
    }
  }

  /** A full output is accepted exactly if it is not empty, has no reasoning tag,
      and its trimmed lines form a report. */
  lemma FullAcceptedIff(value: string)
    ensures var s := Normalize(value);
      ValidateBrokerOutput(value).Some? <==> s != "" && NoTags(s) && Report(TrimAll(SplitLines(s)))
  {
    var lines := TrimAll(SplitLines(Normalize(value)));
    NoTagsIff(Normalize(value));
    if SectionsOk(lines) {
      AcceptedIsReport(lines);
    }
    if Report(lines) {
      ReportIsAccepted(lines);
    }
    hide Normalize, SplitLines, TrimAll, HasReasoning, NoTags, SectionsOk, Report, Join;
  }
}
