/** White space and lines, as the browser's string functions see them. */
module Text {
  import opened Framing

  const LF: string := "\n"

  predicate IsSpace(c: char) {
    c in {' ', '\t', '\n', '\r', '\U{B}', '\U{C}', '\U{A0}', '\U{1680}', '\U{2028}', '\U{2029}', '\U{202F}', '\U{205F}',
          '\U{3000}', '\U{FEFF}'}
    || '\U{2000}' <= c <= '\U{200A}'
  }

  function TrimStart(s: string): string {
    if s != "" && IsSpace(s[0]) then TrimStart(s[1..]) else s
  }

  function TrimEnd(s: string): string {
    if s != "" && IsSpace(s[|s| - 1]) then TrimEnd(s[..|s| - 1]) else s
  }

  function Trim(s: string): string {
    TrimEnd(TrimStart(s))
  }

  predicate StartsWith(s: string, prefix: string) {
    prefix <= s
  }

  function SplitLines(s: string): seq<string> {
    Split(s, LF)
  }

  function JoinLines(lines: seq<string>): string {
    Between(lines, LF)
  }

  lemma SplitOne(line: string)
    requires '\n' !in line
    ensures SplitLines(line) == [line]
  {
    hide Drain;
    SplitUnmarked(line, '\n');
  }

  lemma SplitUndoesJoin(lines: seq<string>)
    requires lines != [] && Unmarked(lines, '\n')
    ensures SplitLines(JoinLines(lines)) == lines
  {
    hide Split, Between;
    SplitUndoesBetween(lines, '\n');
  }

  lemma {:induction false} TrimStartKeeps(s: string)
    ensures |TrimStart(s)| < |s| || TrimStart(s) == s
    ensures TrimStart(s) == s <==> s == "" || !IsSpace(s[0])
  {
    if s != "" && IsSpace(s[0]) {
      TrimStartKeeps(s[1..]);
    }
  }

  lemma {:induction false} TrimEndKeeps(s: string)
    ensures |TrimEnd(s)| < |s| || TrimEnd(s) == s
    ensures TrimEnd(s) == s <==> s == "" || !IsSpace(s[|s| - 1])
  {
    if s != "" && IsSpace(s[|s| - 1]) {
      TrimEndKeeps(s[..|s| - 1]);
    }
  }

  /** A text is trimmed exactly when neither end is white space. */
  lemma TrimmedIff(s: string)
    requires s != ""
    ensures Trim(s) == s <==> !IsSpace(s[0]) && !IsSpace(s[|s| - 1])
  {
    hide TrimStart, TrimEnd, IsSpace;
    TrimStartKeeps(s);
    TrimEndKeeps(TrimStart(s));
  }
}
