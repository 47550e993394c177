/** The text operations the managed SSH configuration of src/desktop.rs is built from. */
module SshText {
  import opened Bytes

  // ---------------------------------------------------------------- line endings

  /** `replace("\r\n", "\n")`. */
  function ReplaceCrLf(t: string): string {
    if t == "" then ""
    else if |t| >= 2 && t[0] == '\r' && t[1] == '\n' then "\n" + ReplaceCrLf(t[2..])
    else [t[0]] + ReplaceCrLf(t[1..])
  }

  /** `replace('\r', "\n")`. */
  function ReplaceCr(t: string): string {
    if t == "" then "" else [if t[0] == '\r' then '\n' else t[0]] + ReplaceCr(t[1..])
  }

  function Normalize(t: string): string {
    ReplaceCr(ReplaceCrLf(t))
  }

  /** `replace('\n', "\r\n")`, what the Windows build writes. */
  function ToCrLf(t: string): string {
    if t == "" then "" else (if t[0] == '\n' then "\r\n" else [t[0]]) + ToCrLf(t[1..])
  }

  /** The line breaks of a text are CR LF, lone CR and lone LF; each becomes one LF. */
  function UnifyBreaks(t: string): string {
    if t == "" then ""
    else if |t| >= 2 && t[0] == '\r' && t[1] == '\n' then "\n" + UnifyBreaks(t[2..])
    else if t[0] == '\r' then "\n" + UnifyBreaks(t[1..])
    else [t[0]] + UnifyBreaks(t[1..])
  }

  predicate NoCr(t: string) {
    '\r' !in t
  }

  /** Two replacements in a row are one pass over the line breaks. */
  lemma {:induction false} NormalizeIsOnePass(t: string)
    ensures Normalize(t) == UnifyBreaks(t) && NoCr(Normalize(t))
  {
    if t != "" {
      if |t| >= 2 && t[0] == '\r' && t[1] == '\n' {
        NormalizeIsOnePass(t[2..]);
        assert ReplaceCrLf(t)[0] == '\n' && ReplaceCrLf(t)[1..] == ReplaceCrLf(t[2..]);
      } else {
        NormalizeIsOnePass(t[1..]);
        assert ReplaceCrLf(t)[0] == t[0] && ReplaceCrLf(t)[1..] == ReplaceCrLf(t[1..]);
      }
    }
  }

  lemma {:induction false} NormalizeKeeps(t: string)
    requires NoCr(t)
    ensures Normalize(t) == t
  {
    if t != "" {
      NormalizeKeeps(t[1..]);
      assert ReplaceCrLf(t)[0] == t[0] && ReplaceCrLf(t)[1..] == ReplaceCrLf(t[1..]);
    }
  }

  lemma NormalizeIsIdempotent(t: string)
    ensures Normalize(Normalize(t)) == Normalize(t)
  {
    NormalizeIsOnePass(t);
    NormalizeKeeps(Normalize(t));
  }

  /** What the Windows build writes reads back as it was. */
  lemma {:induction false} WindowsRoundTrip(t: string)
    requires NoCr(t)
    ensures Normalize(ToCrLf(t)) == t
  {
    if t != "" {
      WindowsRoundTrip(t[1..]);
      var rest := ToCrLf(t[1..]);
      if t[0] == '\n' {
        assert ToCrLf(t)[0] == '\r' && ToCrLf(t)[1] == '\n' && ToCrLf(t)[2..] == rest;
        assert ReplaceCrLf(ToCrLf(t)) == "\n" + ReplaceCrLf(rest);
        assert ReplaceCrLf(ToCrLf(t))[1..] == ReplaceCrLf(rest);
      } else {
        assert ToCrLf(t)[0] == t[0] && ToCrLf(t)[1..] == rest;
        assert ReplaceCrLf(ToCrLf(t)) == [t[0]] + ReplaceCrLf(rest);
        assert ReplaceCrLf(ToCrLf(t))[1..] == ReplaceCrLf(rest);
      }
    }
  }

  /** There no line break stands without its CR, and no CR without its line break. */
  lemma {:induction false} EveryBreakIsCrLf(t: string)
    requires NoCr(t)
    ensures CrLfOnly(ToCrLf(t))
  {
    if t != "" {
      assert t[0] in t;
      EveryBreakIsCrLf(t[1..]);
      var rest := ToCrLf(t[1..]);
      if t[0] == '\n' {
        assert CrLfOnly("\r\n");
        CrLfOnlyAppend("\r\n", rest);
      } else {
        assert CrLfOnly([t[0]]);
        CrLfOnlyAppend([t[0]], rest);
      }
    }
  }

  /** Every LF follows a CR, and every CR is followed by a LF. */
  predicate CrLfOnly(t: string) {
    && (forall i :: 0 <= i < |t| && t[i] == '\n' ==> i > 0 && t[i - 1] == '\r')
    && (forall i :: 0 <= i < |t| && t[i] == '\r' ==> i + 1 < |t| && t[i + 1] == '\n')
  }

  lemma CrLfOnlyAppend(a: string, b: string)
    requires CrLfOnly(a) && CrLfOnly(b)
    ensures CrLfOnly(a + b)
  {
  }

  // ---------------------------------------------------------------- blanks

  /** `char::is_whitespace`. */
  predicate IsSpace(c: char) {
    || '\t' <= c <= '\U{D}' || c == ' ' || c == '\U{85}' || c == '\U{A0}' || c == '\U{1680}'
    || '\U{2000}' <= c <= '\U{200A}' || c == '\U{2028}' || c == '\U{2029}' || c == '\U{202F}'
    || c == '\U{205F}' || c == '\U{3000}'
  }

  function TrimEnd(t: string): (r: string)
    ensures r <= t && (r != "" ==> !IsSpace(r[|r| - 1]))
    ensures forall i :: |r| <= i < |t| ==> IsSpace(t[i])
  {
    if t != "" && IsSpace(t[|t| - 1]) then TrimEnd(t[..|t| - 1]) else t
  }

  function TrimStart(t: string): (r: string)
    ensures |r| <= |t| && (r != "" ==> !IsSpace(r[0]))
    ensures forall i :: 0 <= i < |t| - |r| ==> IsSpace(t[i])
  {
    if t != "" && IsSpace(t[0]) then TrimStart(t[1..]) else t
  }

  lemma {:induction false} TrimStartIsSuffix(t: string)
    ensures TrimStart(t) == t[|t| - |TrimStart(t)|..]
  {
    if t != "" && IsSpace(t[0]) {
      TrimStartIsSuffix(t[1..]);
    }
  }

  function Trim(t: string): string {
    TrimEnd(TrimStart(t))
  }

  predicate Blank(line: string) {
    Trim(line) == ""
  }

  ghost predicate AllSpace(t: string) {
    forall i :: 0 <= i < |t| ==> IsSpace(t[i])
  }

  lemma {:induction false} TrimStartOf(pad: string, t: string)
    requires AllSpace(pad) && (t != "" ==> !IsSpace(t[0]))
    ensures TrimStart(pad + t) == t
  {
    if pad == "" {
      assert pad + t == t;
    } else {
      TrimStartOf(pad[1..], t);
      assert (pad + t)[1..] == pad[1..] + t && IsSpace(pad[0]);
    }
  }

  lemma {:induction false} TrimEndOf(t: string, pad: string)
    requires AllSpace(pad) && (t != "" ==> !IsSpace(t[|t| - 1]))
    ensures TrimEnd(t + pad) == t
  {
    if pad == "" {
      assert t + pad == t;
    } else {
      var init := pad[..|pad| - 1];
      TrimEndOf(t, init);
      assert (t + pad)[..|t + pad| - 1] == t + init && IsSpace(pad[|pad| - 1]);
    }
  }

  /** White space around a text is what trimming takes away, all of it and nothing else. */
  lemma TrimTakesThePadding(before: string, t: string, after: string)
    requires AllSpace(before) && AllSpace(after) && t != "" && !IsSpace(t[0]) && !IsSpace(t[|t| - 1])
    ensures Trim(before + t + after) == t
  {
    TrimStartOf(before, t + after);
    assert before + t + after == before + (t + after);
    TrimEndOf(t, after);
  }

  /** A blank line is one of white space only. */
  lemma BlankIsAllSpace(line: string)
    ensures Blank(line) <==> AllSpace(line)
  {
    TrimStartIsSuffix(line);
    var t := TrimStart(line);
    assert t != "" ==> line[|line| - |t|] == t[0];
    assert TrimEnd(t) == "" ==> forall i :: 0 <= i < |t| ==> IsSpace(t[i]);
  }

  // ---------------------------------------------------------------- lines

  predicate OneLine(line: string) {
    '\n' !in line && '\r' !in line
  }

  ghost predicate AllOneLine(lines: seq<string>) {
    forall i :: 0 <= i < |lines| ==> OneLine(lines[i])
  }

  /** The position of the first LF, or the length. */
  function LineEnd(t: string): (i: nat)
    ensures i <= |t| && (i < |t| ==> t[i] == '\n')
    ensures forall j :: 0 <= j < i ==> t[j] != '\n'
  {
    if t == "" || t[0] == '\n' then 0 else 1 + LineEnd(t[1..])
  }

  function ChopCr(line: string): string {
    if line != "" && line[|line| - 1] == '\r' then line[..|line| - 1] else line
  }

  /** `str::lines`: a trailing LF ends the last line and starts no new one; CR LF counts as one break. */
  function Lines(t: string): seq<string> {
    if t == "" then []
    else if LineEnd(t) == |t| then [t]
    else [ChopCr(t[..LineEnd(t)])] + Lines(t[LineEnd(t) + 1..])
  }

  /** Every line with its LF. */
  function Unlines(lines: seq<string>): string {
    if lines == [] then "" else lines[0] + "\n" + Unlines(lines[1..])
  }

  function JoinWith(parts: seq<string>, separator: string): string {
    if parts == [] then ""
    else if |parts| == 1 then parts[0]
    else parts[0] + separator + JoinWith(parts[1..], separator)
  }

  lemma FirstLine(line: string, rest: string)
    requires OneLine(line)
    ensures LineEnd(line + "\n" + rest) == |line|
    ensures Lines(line + "\n" + rest) == [line] + Lines(rest)
  {
    var t := line + "\n" + rest;
    assert t[|line|] == '\n' && forall j :: 0 <= j < |line| ==> t[j] == line[j];
    assert t[..|line|] == line && t[|line| + 1..] == rest;
  }

  lemma Reassociate(line: string, middle: string, rest: string)
    ensures (line + "\n" + middle) + rest == line + "\n" + (middle + rest)
  {
  }

  lemma {:induction false} LinesAfter(lines: seq<string>, rest: string)
    requires AllOneLine(lines)
    ensures Lines(Unlines(lines) + rest) == lines + Lines(rest)
  {
    hide Lines;
    if lines == [] {
      assert Unlines(lines) + rest == rest;
    } else {
      LinesAfter(lines[1..], rest);
      Reassociate(lines[0], Unlines(lines[1..]), rest);
      FirstLine(lines[0], Unlines(lines[1..]) + rest);
      assert lines == [lines[0]] + lines[1..];
    }
  }

  /** Splitting what was put together from single lines gives those lines. */
  lemma LinesOfUnlines(lines: seq<string>)
    requires AllOneLine(lines)
    ensures Lines(Unlines(lines)) == lines
  {
    LinesAfter(lines, "");
    assert Unlines(lines) + "" == Unlines(lines);
  }

  lemma {:induction false} LinesAreOneLine(t: string)
    requires NoCr(t)
    ensures AllOneLine(Lines(t))
    decreases |t|
  {
    if t != "" && LineEnd(t) < |t| {
      LinesAreOneLine(t[LineEnd(t) + 1..]);
      assert OneLine(t[..LineEnd(t)]);
    }
  }

  lemma {:induction false} JoinIsUnlines(lines: seq<string>)
    requires lines != []
    ensures JoinWith(lines, "\n") + "\n" == Unlines(lines)
  {
    if |lines| == 1 {
      assert Unlines(lines[1..]) == "";
    } else {
      JoinIsUnlines(lines[1..]);
      assert JoinWith(lines, "\n") + "\n" == lines[0] + "\n" + (JoinWith(lines[1..], "\n") + "\n");
    }
  }

  lemma {:induction false} UnlinesAppend(a: seq<string>, b: seq<string>)
    ensures Unlines(a + b) == Unlines(a) + Unlines(b)
  {
    if a == [] {
      assert a + b == b;
    } else {
      UnlinesAppend(a[1..], b);
      assert (a + b)[1..] == a[1..] + b && (a + b)[0] == a[0];
      Reassociate(a[0], Unlines(a[1..]), Unlines(b));
    }
  }

  lemma JoinCons(line: string, lines: seq<string>, separator: string)
    requires lines != []
    ensures JoinWith([line] + lines, separator) == line + separator + JoinWith(lines, separator)
  {
    assert ([line] + lines)[1..] == lines;
  }

  lemma CutString(t: string, i: nat)
    requires i < |t| && t[i] == '\n'
    ensures t == t[..i] + "\n" + t[i + 1..]
  {
    assert "\n" == [t[i]];
  }

  lemma NoCrParts(t: string, i: nat)
    requires NoCr(t) && i <= |t|
    ensures NoCr(t[..i]) && NoCr(t[i..])
  {
  }

  lemma CutAtBreak(t: string, i: nat)
    requires NoCr(t) && i == LineEnd(t) && i < |t| && t[|t| - 1] != '\n'
    ensures i + 1 < |t| && t == t[..i] + "\n" + t[i + 1..]
    ensures Lines(t) == [t[..i]] + Lines(t[i + 1..]) && NoCr(t[i + 1..])
  {
    CutString(t, i);
    NoCrParts(t, i);
    NoCrParts(t, i + 1);
    hide LineEnd;
    assert t != "" && ChopCr(t[..i]) == t[..i];
  }

  /** Joining the lines of a text that does not end in LF gives the text back. */
  lemma {:induction false} JoinOfLines(t: string)
    requires NoCr(t) && t != "" && t[|t| - 1] != '\n'
    ensures Lines(t) != [] && JoinWith(Lines(t), "\n") == t
    decreases |t|
  {
    var i := LineEnd(t);
    if i < |t| {
      CutAtBreak(t, i);
      hide Lines;
      hide JoinWith;
      JoinOfLines(t[i + 1..]);
      JoinCons(t[..i], Lines(t[i + 1..]), "\n");
    }
  }

  lemma BreaksLater(line: string, rest: string, y: string)
    ensures (line + "\n" + rest) + "\n" + y == line + "\n" + (rest + "\n" + y)
    ensures (line + "\n" + rest) + "\n" == line + "\n" + (rest + "\n")
  {
  }

  lemma CutLater(line: string, both: string, first: string, second: string)
    requires OneLine(line) && Lines(both) == Lines(first) + Lines(second)
    ensures Lines(line + "\n" + both) == Lines(line + "\n" + first) + Lines(second)
  {
    FirstLine(line, both);
    FirstLine(line, first);
    hide *;
    Grouped([line], Lines(first), Lines(second));
  }

  lemma Grouped(a: seq<string>, b: seq<string>, c: seq<string>)
    ensures a + (b + c) == a + b + c
  {
  }

  lemma CutFirst(line: string, y: string)
    requires OneLine(line)
    ensures Lines(line + "\n" + y) == Lines(line + "\n") + Lines(y)
  {
    FirstLine(line, y);
    FirstLine(line, "");
    assert line + "\n" + "" == line + "\n" && Lines("") == [];
  }

  /** A text can be read in two parts, cut behind a line break. */
  lemma {:induction false} LinesCut(x: string, y: string)
    requires NoCr(x)
    ensures Lines(x + "\n" + y) == Lines(x + "\n") + Lines(y)
    decreases |x|
  {
    var i := LineEnd(x);
    if i == |x| {
      CutFirst(x, y);
    } else {
      CutString(x, i);
      NoCrParts(x, i);
      NoCrParts(x, i + 1);
      assert OneLine(x[..i]);
      hide *;
      LinesCut(x[i + 1..], y);
      BreaksLater(x[..i], x[i + 1..], y);
      CutLater(x[..i], x[i + 1..] + "\n" + y, x[i + 1..] + "\n", y);
    }
  }

  /** A text that does not end in LF keeps its lines when more is written on a new line behind it. */
  lemma LinesStayFirst(t: string, more: string)
    requires NoCr(t) && t != "" && t[|t| - 1] != '\n'
    ensures Lines(t + "\n" + more) == Lines(t) + Lines(more)
  {
    JoinOfLines(t);
    JoinIsUnlines(Lines(t));
    LinesAreOneLine(t);
    LinesAfter(Lines(t), more);
  }

  lemma LineAlone(line: string)
    requires OneLine(line)
    ensures Lines(line) == if line == "" then [] else [line]
  {
    assert forall j :: 0 <= j < |line| ==> line[j] != '\n';
  }

  lemma LinesOfSnoc(init: seq<string>, last: string)
    requires AllOneLine(init) && OneLine(last)
    ensures Lines(JoinWith(init + [last], "\n")) == init + Lines(last)
  {
    hide Lines;
    JoinSnoc(init, last);
    LinesAfter(init, last);
  }

  lemma InitLast(lines: seq<string>)
    requires lines != []
    ensures lines == lines[..|lines| - 1] + [lines[|lines| - 1]]
  {
  }

  lemma InitOneLine(lines: seq<string>)
    requires AllOneLine(lines) && lines != []
    ensures AllOneLine(lines[..|lines| - 1]) && OneLine(lines[|lines| - 1])
  {
    assert OneLine(lines[|lines| - 1]);
    hide OneLine;
    assert forall i :: 0 <= i < |lines| - 1 ==> lines[..|lines| - 1][i] == lines[i];
  }

  /** Lines of joined lines: the same, except that an empty last line leaves no trace. */
  lemma LinesOfJoin(lines: seq<string>)
    requires AllOneLine(lines) && lines != []
    ensures Lines(JoinWith(lines, "\n")) == if lines[|lines| - 1] == "" then lines[..|lines| - 1] else lines
  {
    var init, last := lines[..|lines| - 1], lines[|lines| - 1];
    InitLast(lines);
    assert init + [] == init;
    InitOneLine(lines);
    hide *;
    LineAlone(last);
    LinesOfSnoc(init, last);
  }

  lemma {:induction false} JoinSnoc(init: seq<string>, last: string)
    ensures JoinWith(init + [last], "\n") == Unlines(init) + last
  {
    if init != [] {
      JoinSnoc(init[1..], last);
      assert (init + [last])[1..] == init[1..] + [last];
    }
  }

  // ---------------------------------------------------------------- searching

  predicate OccursAt(text: string, m: string, i: nat) {
    i + |m| <= |text| && text[i..i + |m|] == m
  }

  ghost predicate Occurs(text: string, m: string) {
    exists i: nat :: OccursAt(text, m, i)
  }

  /** `str::find`, from position `from` on. */
  function FindFrom(text: string, m: string, from: nat): (r: Option<nat>)
    requires from <= |text|
    ensures r.Some? ==> from <= r.value && OccursAt(text, m, r.value)
    ensures r.Some? ==> forall i: nat :: from <= i < r.value ==> !OccursAt(text, m, i)
    ensures r.None? ==> forall i: nat :: from <= i ==> !OccursAt(text, m, i)
    decreases |text| - from
  {
    if OccursAt(text, m, from) then Some(from)
    else if from == |text| then None
    else FindFrom(text, m, from + 1)
  }

  function Find(text: string, m: string): Option<nat> {
    FindFrom(text, m, 0)
  }

  lemma FindIs(text: string, m: string, i: nat)
    requires OccursAt(text, m, i) && forall j: nat :: j < i ==> !OccursAt(text, m, j)
    ensures Find(text, m) == Some(i)
  {
  }

  /** What does not hold a character never straddles it. */
  lemma OccursAround(a: string, c: char, b: string, m: string, i: nat)
    requires c !in m && m != ""
    ensures OccursAt(a + [c] + b, m, i) <==> OccursAt(a, m, i) || (i > |a| && OccursAt(b, m, i - |a| - 1))
  {
    var t := a + [c] + b;
    assert t[|a|] == c;
    if i + |m| <= |a| {
      assert t[i..i + |m|] == a[i..i + |m|];
    } else if i > |a| {
      if i + |m| <= |t| {
        assert t[i..i + |m|] == b[i - |a| - 1..i - |a| - 1 + |m|];
      }
    } else if i + |m| <= |t| {
      assert t[i..i + |m|][|a| - i] == c;
    }
  }

  /** A marker without LF never straddles a line break. */
  lemma OccursAroundBreak(a: string, b: string, m: string, i: nat)
    requires '\n' !in m && m != ""
    ensures OccursAt(a + "\n" + b, m, i) <==> OccursAt(a, m, i) || (i > |a| && OccursAt(b, m, i - |a| - 1))
  {
    OccursAround(a, '\n', b, m, i);
  }

  lemma OccursInPrefix(text: string, cut: nat, m: string, i: nat)
    requires cut <= |text|
    ensures OccursAt(text[..cut], m, i) <==> OccursAt(text, m, i) && i + |m| <= cut
  {
    if i + |m| <= cut {
      assert text[..cut][i..i + |m|] == text[i..i + |m|];
    }
  }

  lemma OccursInSuffix(text: string, cut: nat, m: string, i: nat)
    requires cut <= |text|
    ensures OccursAt(text[cut..], m, i) <==> OccursAt(text, m, cut + i)
  {
    if cut + i + |m| <= |text| {
      assert text[cut..][i..i + |m|] == text[cut + i..cut + i + |m|];
    }
  }

  /** What occurs in a line of a text occurs in the text. */
  lemma {:induction false} LineOccurs(t: string, k: nat, m: string)
    requires NoCr(t) && k < |Lines(t)| && Occurs(Lines(t)[k], m)
    ensures Occurs(t, m)
    decreases |t|
  {
    var end := LineEnd(t);
    if end < |t| {
      assert NoCr(t[..end]);
      if k == 0 {
        var i: nat :| OccursAt(Lines(t)[0], m, i);
        OccursInPrefix(t, end, m, i);
      } else {
        LineOccurs(t[end + 1..], k - 1, m);
        var i: nat :| OccursAt(t[end + 1..], m, i);
        OccursInSuffix(t, end + 1, m, i);
      }
    }
  }

  /** What occurs in joined lines, and has no LF, occurs in one of them. */
  lemma {:induction false} JoinOccurs(lines: seq<string>, m: string) returns (k: nat)
    requires '\n' !in m && m != "" && Occurs(JoinWith(lines, "\n"), m)
    ensures k < |lines| && Occurs(lines[k], m)
  {
    var i: nat :| OccursAt(JoinWith(lines, "\n"), m, i);
    if |lines| == 1 {
      k := 0;
    } else {
      OccursAroundBreak(lines[0], JoinWith(lines[1..], "\n"), m, i);
      if OccursAt(lines[0], m, i) {
        k := 0;
      } else {
        assert OccursAt(JoinWith(lines[1..], "\n"), m, i - |lines[0]| - 1);
        k := JoinOccurs(lines[1..], m);
        k := k + 1;
      }
    }
  }
}
