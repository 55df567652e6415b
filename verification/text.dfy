/** Python string operations the scaffolding tool relies on, restricted to
    what generate_feature.py uses: `pat in s`, `s.replace(pat, rep)` with a
    non-empty `pat`, ASCII `lower()` / `capitalize()`, and the text a file gets
    when a list of lines is written one `line + "\n"` at a time. */
module Text {

  /** `s` begins with `pat`. */
  predicate StartsWith(s: string, pat: string) {
    |pat| <= |s| && s[..|pat|] == pat
  }

  /** `pat` occurs in `s` starting at index `i`. */
  predicate OccursAt(s: string, pat: string, i: int) {
    0 <= i && i + |pat| <= |s| && s[i..i + |pat|] == pat
  }

  /** Python's `pat in s`: some window of `s` equals `pat`. */
  predicate Contains(s: string, pat: string) {
    exists i :: 0 <= i <= |s| - |pat| && OccursAt(s, pat, i)
  }

  /** A window of `s` that holds a character absent from `pat` cannot be an
      occurrence of `pat`, so an occurrence in `a + [c] + b` lies in `a` or in `b`. */
  lemma ContainsAcross(a: string, c: char, b: string, pat: string)
    requires c !in pat
    requires Contains(a + [c] + b, pat)
    ensures Contains(a, pat) || Contains(b, pat)
  {
    var s := a + [c] + b;
    var i :| 0 <= i <= |s| - |pat| && OccursAt(s, pat, i);
    assert s[i..i + |pat|] == pat;
    if i + |pat| <= |a| {
      assert a[i..i + |pat|] == s[i..i + |pat|];
      assert OccursAt(a, pat, i);
    } else if i > |a| {
      var j := i - |a| - 1;
      assert b[j..j + |pat|] == s[i..i + |pat|];
      assert OccursAt(b, pat, j);
    } else {
      WindowAt(s, pat, i, |a| - i);
      assert false;
    }
  }

  /** A pattern with a character that `s` lacks does not occur in `s`. */
  lemma MissingChar(s: string, pat: string, k: int)
    requires 0 <= k < |pat| && pat[k] !in s
    ensures !Contains(s, pat)
  {
    if Contains(s, pat) {
      var i :| 0 <= i <= |s| - |pat| && OccursAt(s, pat, i);
      WindowAt(s, pat, i, k);
      assert false;
    }
  }

  /** The characters of an occurrence are those of the pattern. */
  lemma WindowAt(s: string, pat: string, i: int, k: int)
    requires OccursAt(s, pat, i) && 0 <= k < |pat|
    ensures s[i + k] == pat[k]
  {
    assert s[i..i + |pat|][k] == s[i + k];
  }

  /** An occurrence of `pat` inside `b` is an occurrence inside `a + b + c`. */
  lemma ContainsWithin(a: string, b: string, c: string, pat: string)
    requires Contains(b, pat)
    ensures Contains(a + b + c, pat)
  {
    var s := a + b + c;
    var i :| 0 <= i <= |b| - |pat| && OccursAt(b, pat, i);
    assert s[|a| + i..|a| + i + |pat|] == b[i..i + |pat|];
    assert OccursAt(s, pat, |a| + i);
  }

  /** Python's `s.replace(pat, rep)`: occurrences are found left to right
      without overlap and the inserted text is never rescanned. */
  function Replace(s: string, pat: string, rep: string): string
    requires |pat| > 0
    decreases |s|
  {
    if StartsWith(s, pat) then rep + Replace(s[|pat|..], pat, rep)
    else if s == [] then []
    else [s[0]] + Replace(s[1..], pat, rep)
  }

  /** `SplitFrom(s, pat, [])` is Python's `s.split(pat)`; `cur` is the piece
      being collected. */
  function SplitFrom(s: string, pat: string, cur: string): (pieces: seq<string>)
    requires |pat| > 0
    ensures |pieces| > 0
    decreases |s|
  {
    if StartsWith(s, pat) then [cur] + SplitFrom(s[|pat|..], pat, [])
    else if s == [] then [cur]
    else SplitFrom(s[1..], pat, cur + [s[0]])
  }

  /** Python's `sep.join(pieces)`. */
  function JoinWith(pieces: seq<string>, sep: string): string {
    if |pieces| <= 1 then (if pieces == [] then [] else pieces[0])
    else pieces[0] + sep + JoinWith(pieces[1..], sep)
  }

  /** For a non-empty `p`, `r.join(s.split(p))` is an equivalent definition
      of `s.replace(p, r)`; the model of `replace` agrees with it. */
  lemma {:induction false} ReplaceIsJoinOfSplit(s: string, pat: string, rep: string, cur: string)
    requires |pat| > 0
    ensures JoinWith(SplitFrom(s, pat, cur), rep) == cur + Replace(s, pat, rep)
    decreases |s|
  {
    if StartsWith(s, pat) {
      ReplaceIsJoinOfSplit(s[|pat|..], pat, rep, []);
      JoinSplitAtMatch(s, pat, rep, cur);
    } else if s != [] {
      ReplaceIsJoinOfSplit(s[1..], pat, rep, cur + [s[0]]);
      JoinSplitPastChar(s, pat, rep, cur);
    }
  }

  /** The step of `ReplaceIsJoinOfSplit` at an occurrence of the pattern. */
  lemma JoinSplitAtMatch(s: string, pat: string, rep: string, cur: string)
    requires |pat| > 0 && StartsWith(s, pat)
    requires JoinWith(SplitFrom(s[|pat|..], pat, []), rep) == [] + Replace(s[|pat|..], pat, rep)
    ensures JoinWith(SplitFrom(s, pat, cur), rep) == cur + Replace(s, pat, rep)
  {
    var tail := s[|pat|..];
    var rest := SplitFrom(tail, pat, []);
    assert SplitFrom(s, pat, cur) == [cur] + rest;
    assert ([cur] + rest)[1..] == rest;
    assert JoinWith([cur] + rest, rep) == cur + rep + JoinWith(rest, rep);
    assert [] + Replace(tail, pat, rep) == Replace(tail, pat, rep);
    assert Replace(s, pat, rep) == rep + Replace(tail, pat, rep);
  }

  /** The step of `ReplaceIsJoinOfSplit` past a character that starts no
      occurrence. */
  lemma JoinSplitPastChar(s: string, pat: string, rep: string, cur: string)
    requires |pat| > 0 && !StartsWith(s, pat) && s != []
    requires JoinWith(SplitFrom(s[1..], pat, cur + [s[0]]), rep) == cur + [s[0]] + Replace(s[1..], pat, rep)
    ensures JoinWith(SplitFrom(s, pat, cur), rep) == cur + Replace(s, pat, rep)
  {
    assert SplitFrom(s, pat, cur) == SplitFrom(s[1..], pat, cur + [s[0]]);
    assert Replace(s, pat, rep) == [s[0]] + Replace(s[1..], pat, rep);
    assert cur + [s[0]] + Replace(s[1..], pat, rep) == cur + ([s[0]] + Replace(s[1..], pat, rep));
  }

  /** Replacing a pattern by itself changes nothing. */
  lemma {:induction false} ReplaceBySelf(s: string, pat: string)
    requires |pat| > 0
    ensures Replace(s, pat, pat) == s
    decreases |s|
  {
    if StartsWith(s, pat) {
      ReplaceBySelf(s[|pat|..], pat);
      assert s == pat + s[|pat|..];
    } else if s != [] {
      ReplaceBySelf(s[1..], pat);
      assert s == [s[0]] + s[1..];
    }
  }

  /** Round trip of split and join: joining the pieces with the separator they
      were split on gives back the original string. */
  lemma SplitJoinRoundTrip(s: string, pat: string)
    requires |pat| > 0
    ensures JoinWith(SplitFrom(s, pat, []), pat) == s
  {
    ReplaceIsJoinOfSplit(s, pat, pat, []);
    ReplaceBySelf(s, pat);
  }

  /** No occurrence of `pat` (whose first character is `{`) can start inside
      `t` when `t` is followed by `u`: every `{` in `t` is followed by
      something other than `pat[1]`. */
  predicate CannotStartIn(t: string, u: string, pat: string)
    requires |pat| >= 2
  {
    forall i :: 0 <= i < |t| && t[i] == pat[0] ==> i + 1 < |t + u| && (t + u)[i + 1] != pat[1]
  }

  /** Text in which no occurrence can start passes through `replace` unchanged. */
  lemma {:induction false} ReplaceSkips(t: string, u: string, pat: string, rep: string)
    requires |pat| >= 2 && CannotStartIn(t, u, pat)
    ensures Replace(t + u, pat, rep) == t + Replace(u, pat, rep)
    decreases |t|
  {
    if t != [] {
      var s := t + u;
      if |pat| <= |s| {
        assert s[..|pat|][0] == t[0];
        if t[0] == pat[0] {
          assert s[..|pat|][1] == s[1];
        }
      }
      assert s[1..] == t[1..] + u;
      forall i | 0 <= i < |t[1..]| && t[1..][i] == pat[0]
        ensures i + 1 < |t[1..] + u| && (t[1..] + u)[i + 1] != pat[1]
      {
        assert t[i + 1] == pat[0];
        assert (t[1..] + u)[i + 1] == s[i + 2];
      }
      ReplaceSkips(t[1..], u, pat, rep);
    } else {
      assert t + u == u;
    }
  }

  /** An occurrence at the front is replaced and scanning resumes after it. */
  lemma ReplaceFront(u: string, pat: string, rep: string)
    requires |pat| > 0
    ensures Replace(pat + u, pat, rep) == rep + Replace(u, pat, rep)
  {
    assert (pat + u)[..|pat|] == pat;
    assert (pat + u)[|pat|..] == u;
  }

  /** A string without the pattern's first character is left unchanged. */
  lemma ReplaceAbsent(s: string, pat: string, rep: string)
    requires |pat| >= 2 && pat[0] !in s
    ensures Replace(s, pat, rep) == s
  {
    assert s + [] == s;
    ReplaceSkips(s, [], pat, rep);
  }

  /** ASCII `str.lower()` on one character; other characters are unchanged. */
  function LowerChar(c: char): (r: char)
    ensures 'A' <= c <= 'Z' ==> r as int == c as int + 32
    ensures !('A' <= c <= 'Z') ==> r == c
  {
    if 'A' <= c <= 'Z' then (c as int + 32) as char else c
  }

  /** ASCII upper-casing of one character. */
  function UpperChar(c: char): (r: char)
    ensures 'a' <= c <= 'z' ==> r as int == c as int - 32
    ensures !('a' <= c <= 'z') ==> r == c
  {
    if 'a' <= c <= 'z' then (c as int - 32) as char else c
  }

  predicate IsLower(s: string) {
    forall i :: 0 <= i < |s| ==> !('A' <= s[i] <= 'Z')
  }

  /** ASCII `str.lower()`. */
  function Lower(s: string): (r: string)
    ensures |r| == |s| && IsLower(r)
    ensures forall i :: 0 <= i < |s| && !('A' <= s[i] <= 'Z') ==> r[i] == s[i]
    ensures forall i :: 0 <= i < |s| ==> r[i] == LowerChar(s[i])
  {
    seq(|s|, i requires 0 <= i < |s| => LowerChar(s[i]))
  }

  /** Lower-casing cannot produce a character that is not a lower-case
      letter unless the text already held it. */
  lemma LowerKeepsOut(s: string, c: char)
    requires c !in s && !('a' <= c <= 'z')
    ensures c !in Lower(s)
  {
    var r := Lower(s);
    forall i | 0 <= i < |r| ensures r[i] != c {
      assert s[i] in s;
    }
  }

  lemma LowerIdempotent(s: string)
    ensures Lower(Lower(s)) == Lower(s)
  {
  }

  /** Lower-casing leaves a string that is already lower case unchanged. */
  lemma LowerOfLower(s: string)
    requires IsLower(s)
    ensures Lower(s) == s
  {
  }

  /** ASCII `str.capitalize()`: the first character upper-cased, the rest lower-cased. */
  function Capitalize(s: string): (r: string)
    ensures |r| == |s|
    ensures s != [] ==> r[0] == UpperChar(s[0]) && r[1..] == Lower(s[1..])
  {
    if s == [] then [] else [UpperChar(s[0])] + Lower(s[1..])
  }

  /** On a name that is already lower case, as the tool's feature name is,
      `capitalize()` changes the first character only. */
  lemma CapitalizeLowered(raw: string)
    ensures var name := Lower(raw);
      |Capitalize(name)| == |name| &&
      forall i :: 0 < i < |name| ==> Capitalize(name)[i] == name[i]
  {
    var name := Lower(raw);
    if name != [] {
      LowerOfLower(name[1..]);
    }
  }

  /** What `for line in lines: f.write(f"{line}\n")` leaves in a freshly truncated file. */
  function ExportText(lines: seq<string>): string {
    if lines == [] then [] else lines[0] + "\n" + ExportText(lines[1..])
  }

  /** A single line written by `add_exports_to_file`. */
  lemma ExportOne(line: string)
    ensures ExportText([line]) == line + "\n"
  {
    assert [line][1..] == [];
  }

  /** Writing one more line appends it and its newline. */
  lemma {:induction false} ExportTextSnoc(lines: seq<string>, line: string)
    ensures ExportText(lines + [line]) == ExportText(lines) + line + "\n"
  {
    if lines == [] {
      assert [] + [line] == [line];
    } else {
      assert (lines + [line])[1..] == lines[1..] + [line];
      ExportTextSnoc(lines[1..], line);
    }
  }

  /** Reading a text back as newline-terminated lines; `cur` is the line being read. */
  function LinesFrom(text: string, cur: string): seq<string>
    decreases |text|
  {
    if text == [] then (if cur == [] then [] else [cur])
    else if text[0] == '\n' then [cur] + LinesFrom(text[1..], [])
    else LinesFrom(text[1..], cur + [text[0]])
  }

  function Lines(text: string): seq<string> {
    LinesFrom(text, [])
  }

  /** Reading a newline-free line followed by more text. */
  lemma {:induction false} LinesFromLine(line: string, rest: string, cur: string)
    requires '\n' !in line
    ensures LinesFrom(line + "\n" + rest, cur) == [cur + line] + LinesFrom(rest, [])
    decreases |line|
  {
    if line == [] {
      assert line + "\n" + rest == ['\n'] + rest;
      assert (['\n'] + rest)[1..] == rest;
      assert cur + line == cur;
    } else {
      assert (line + "\n" + rest)[1..] == line[1..] + "\n" + rest;
      LinesFromLine(line[1..], rest, cur + [line[0]]);
      assert cur + [line[0]] + line[1..] == cur + line;
    }
  }

  /** The file written from export lines reads back as exactly those lines,
      in order, provided no line holds a newline of its own. */
  lemma {:induction false} ExportTextLines(lines: seq<string>)
    requires forall k :: 0 <= k < |lines| ==> '\n' !in lines[k]
    ensures Lines(ExportText(lines)) == lines
  {
    if lines != [] {
      LinesFromLine(lines[0], ExportText(lines[1..]), []);
      ExportTextLines(lines[1..]);
      assert [] + lines[0] == lines[0];
    }
  }
}
