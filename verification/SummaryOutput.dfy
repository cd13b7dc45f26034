/**
 Normal form of summary text that comes back from the broker
 (app/services/broker_summary.py).

 Both validators normalise line ends, trim, and check the lines; what they
 return is accepted again and returned unchanged.
 */
module SummaryOutput {
  import opened Prelude

  // --------------------------------------------------------------- strings

  /** `str.isspace` for one character. */
  predicate IsSpace(c: char) {
    var n := c as int;
    || 0x09 <= n <= 0x0d || 0x1c <= n <= 0x20 || n == 0x85 || n == 0xa0 || n == 0x1680
    || 0x2000 <= n <= 0x200a || n == 0x2028 || n == 0x2029 || n == 0x202f || n == 0x205f || n == 0x3000
  }

  predicate IsBlank(c: char) {
    c == ' ' || c == '\t'
  }

  function LStrip(s: string): string {
    if s != "" && IsSpace(s[0]) then LStrip(s[1..]) else s
  }

  function RStripBy(drop: char -> bool, s: string): string {
    if s != "" && drop(s[|s| - 1]) then RStripBy(drop, s[..|s| - 1]) else s
  }

  function Strip(s: string): string {
    RStripBy(c => IsSpace(c), LStrip(s))
  }

  /** `line.rstrip(" \t")` */
  function TrimEnd(line: string): string {
    RStripBy(c => IsBlank(c), line)
  }

  /** `\r\n` and lone `\r` both become `\n`. */
  function UnixNewlines(s: string): string {
    if s == "" then ""
    else if s[0] == '\r' then
      "\n" + UnixNewlines(if |s| > 1 && s[1] == '\n' then s[2..] else s[1..])
    else [s[0]] + UnixNewlines(s[1..])
  }

  function SplitLines(s: string): (lines: seq<string>)
    ensures lines != []
  {
    if s == "" then [""]
    else
      var rest := SplitLines(s[1..]);
      if s[0] == '\n' then [""] + rest else [[s[0]] + rest[0]] + rest[1..]
  }

  function Join(lines: seq<string>): string
    requires lines != []
  {
    if |lines| == 1 then lines[0] else lines[0] + "\n" + Join(lines[1..])
  }

  function TrimAll(lines: seq<string>): (trimmed: seq<string>)
    ensures |trimmed| == |lines|
    ensures forall i :: 0 <= i < |lines| ==> trimmed[i] == TrimEnd(lines[i])
  {
    seq(|lines|, i requires 0 <= i < |lines| => TrimEnd(lines[i]))
  }

  predicate StartsWith(s: string, prefix: string) {
    prefix <= s
  }

  /** Case folding of one character against a lower-case ASCII letter or mark;
      the Kelvin sign is the only further character that folds to one of the
      letters of the tags below. */
  predicate FoldsTo(c: char, lower: char) {
    || c == lower
    || ('a' <= lower <= 'z' && c as int == lower as int - 32)
    || (lower == 'k' && c as int == 0x212a)
  }

  predicate TagAt(s: string, tag: string, at: int) {
    0 <= at && at + |tag| <= |s| && forall k :: 0 <= k < |tag| ==> FoldsTo(s[at + k], tag[k])
  }

  predicate HasTag(s: string, tag: string) {
    exists at :: 0 <= at <= |s| - |tag| && TagAt(s, tag, at)
  }

  predicate HasReasoning(s: string) {
    HasTag(s, "<think") || HasTag(s, "</think>")
  }

  // ------------------------------------------------------------ full output

  const HEADINGS: seq<string> := ["RESUMEN", "PUNTOS CLAVE", "CONCLUSIÓN"]
  const BULLET := "•"

  predicate Markdown(line: string) {
    var s := LStrip(line);
    StartsWith(s, "#") || StartsWith(s, "```") || StartsWith(s, "~~~") || StartsWith(s, "1. ") || StartsWith(s, "1) ")
  }

  predicate IsCapital(c: char) {
    ('A' <= c <= 'Z') || c in "ÁÉÍÓÚÜÑ "
  }

  predicate ShoutedLine(line: string) {
    line != "" && (forall c :: c in line ==> IsCapital(c)) && line !in HEADINGS
  }

  function Count(lines: seq<string>, line: string): nat {
    if lines == [] then 0 else (if lines[0] == line then 1 else 0) + Count(lines[1..], line)
  }

  function IndexOf(lines: seq<string>, line: string): (at: nat)
    ensures line in lines ==> at < |lines| && lines[at] == line
    ensures line !in lines ==> at == |lines|
  {
    if lines == [] || lines[0] == line then 0 else 1 + IndexOf(lines[1..], line)
  }

  predicate HasText(line: string) {
    Strip(line) != ""
  }

  predicate BulletLine(line: string) {
    StartsWith(line, BULLET) && HasText(line[1..])
  }

  /** The heading, section and bullet rules of the final summary. */
  predicate SectionsOk(lines: seq<string>) {
    && (forall line :: line in lines ==> !Markdown(line) && !ShoutedLine(line))
    && Count(lines, HEADINGS[0]) == 1
    && Count(lines, HEADINGS[1]) == 1
    && Count(lines, HEADINGS[2]) <= 1
    && (var summary := IndexOf(lines, HEADINGS[0]);
        var points := IndexOf(lines, HEADINGS[1]);
        var conclusion := IndexOf(lines, HEADINGS[2]);
        && summary < points < conclusion
        && (exists line :: line in lines[summary + 1..points] && HasText(line))
        && (conclusion < |lines| ==> exists line :: line in lines[conclusion + 1..] && HasText(line))
        && (exists line :: line in lines[points + 1..conclusion] && HasText(line))
        && (forall line :: line in lines[points + 1..conclusion] && HasText(line) ==> BulletLine(line)))
  }

  function Normalize(value: string): string {
    Strip(UnixNewlines(value))
  }

  function ValidateBrokerOutput(value: string): Option<string> {
    var normalized := Normalize(value);
    var lines := TrimAll(SplitLines(normalized));
    if normalized == "" || HasReasoning(normalized) || !SectionsOk(lines) then None
    else Some(Join(lines))
  }

  function TextLines(lines: seq<string>): (kept: seq<string>) {
    if lines == [] then []
    else (if HasText(lines[0]) then [TrimEnd(lines[0])] else []) + TextLines(lines[1..])
  }

  function ValidateBrokerPartialOutput(value: string): Option<string> {
    var normalized := Normalize(value);
    var lines := TextLines(SplitLines(normalized));
    if lines == [] || (exists line :: line in lines && !BulletLine(line)) || HasReasoning(normalized) then None
    else Some(Join(lines))
  }

  // -------------------------------------------------------------- non-empty

  lemma {:induction false} JoinKeepsText(lines: seq<string>, i: nat)
    requires i < |lines| && lines[i] != ""
    ensures Join(lines) != ""
  {
    if |lines| > 1 && i > 0 {
      JoinKeepsText(lines[1..], i - 1);
    }
  }

  lemma {:induction false} CountedOccurs(lines: seq<string>, line: string)
    requires Count(lines, line) > 0
    ensures line in lines
  {
    if lines[0] != line {
      CountedOccurs(lines[1..], line);
    }
  }

  /** What a validator returns always has text. */
  lemma ValidatedHasText(value: string)
    ensures var full := ValidateBrokerOutput(value); full.Some? ==> full.value != ""
    ensures var partial := ValidateBrokerPartialOutput(value); partial.Some? ==> partial.value != ""
  {
    var lines := TrimAll(SplitLines(Normalize(value)));
    if SectionsOk(lines) {
      CountedOccurs(lines, HEADINGS[0]);
      JoinKeepsText(lines, IndexOf(lines, HEADINGS[0]));
    }
    var kept := TextLines(SplitLines(Normalize(value)));
    if kept != [] && BulletLine(kept[0]) {
      JoinKeepsText(kept, 0);
    }
  }
}
