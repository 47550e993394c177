/** The blocks the desktop application writes for its devices, and what sequences of them leave in the file. */
module SshHosts {
  import opened SshText
  import opened SshBlocks
  import opened SshConfig
  import Auth

  predicate ValidAlias(alias: string) {
    0 < |alias| <= 255 && forall i :: 0 <= i < |alias| ==> Auth.IdChar(alias[i])
  }

  /** `shell_double_quote` on Windows doubles quotes; elsewhere it puts a backslash before what a shell would expand. */
  function Escaped(value: string, windows: bool): string {
    if value == "" then ""
    else
      var c := value[0];
      (if windows then if c == '"' then "\"\"" else [c]
       else if c in "\"\\$`" then ['\\', c] else [c]) + Escaped(value[1..], windows)
  }

  function Quoted(value: string, windows: bool): string {
    "\"" + Escaped(value, windows) + "\""
  }

  datatype Host = Host(alias: string, device: string, user: string, executable: string, setupPath: string)

  function HostLines(h: Host, windows: bool): Block {
    [HOST_PREFIX + h.alias,
     "\t" + "HostName rust-ssh-proxy",
     "\t" + (ALIAS_PREFIX + h.device),
     "\t" + ("User " + h.user),
     "\t" + "ControlMaster no",
     "\t" + "ControlPersist no",
     "\t" + "ControlPath none",
     "\t" + ProxyCommand(h, windows)]
  }

  function ProxyCommand(h: Host, windows: bool): string {
    "ProxyCommand " + (Quoted(h.executable, windows) + (" --proxy --setup-code-file "
      + (Quoted(h.setupPath, windows) + (" --target " + Quoted(h.device, windows)))))
  }

  /** `ssh_host_block`; the Windows build breaks lines with CR LF. */
  function HostBlock(h: Host, windows: bool): string {
    var newline := if windows then "\r\n" else "\n";
    JoinWith(HostLines(h, windows), newline) + newline
  }

  /** `validate_ssh_user`: no white space and no control character. */
  predicate ValidUser(user: string) {
    user != "" && forall i :: 0 <= i < |user| ==>
      !IsSpace(user[i]) && ' ' <= user[i] && !('\U{7F}' <= user[i] <= '\U{9F}')
  }

  /** What `install_ssh_host` checks. */
  predicate Checked(h: Host) {
    ValidAlias(h.alias) && Auth.ValidDeviceId(h.device) && ValidUser(h.user)
  }

  /** What it does not check: that neither path breaks a line or holds the end marker. */
  ghost predicate PlainPaths(h: Host) {
    && OneLine(h.executable) && OneLine(h.setupPath)
    && !Occurs(h.executable, END) && !Occurs(h.setupPath, END)
  }

  ghost predicate Installable(h: Host) {
    Checked(h) && PlainPaths(h)
  }

  /** The block of a host as the editor takes it. */
  function Written(h: Host, windows: bool): string {
    TrimEnd(Normalize(HostBlock(h, windows)))
  }

  // ---------------------------------------------------------------- single lines

  lemma OneLineConcat(a: string, b: string)
    requires OneLine(a) && OneLine(b)
    ensures OneLine(a + b)
  {
  }

  lemma NameIsOneLine(name: string)
    requires name != "" && forall i :: 0 <= i < |name| ==> Auth.IdChar(name[i])
    ensures OneLine(name) && !IsSpace(name[0]) && !IsSpace(name[|name| - 1])
  {
    assert Auth.IdChar(name[0]) && Auth.IdChar(name[|name| - 1]);
  }

  lemma {:induction false} EscapedIsOneLine(value: string, windows: bool)
    requires OneLine(value)
    ensures OneLine(Escaped(value, windows))
  {
    if value != "" {
      EscapedIsOneLine(value[1..], windows);
    }
  }

  lemma QuotedIsOneLine(value: string, windows: bool)
    requires OneLine(value)
    ensures OneLine(Quoted(value, windows)) && Quoted(value, windows)[|Quoted(value, windows)| - 1] == '"'
  {
    EscapedIsOneLine(value, windows);
    hide Escaped;
    OneLineConcat("\"", Escaped(value, windows));
    OneLineConcat("\"" + Escaped(value, windows), "\"");
  }

  lemma ProxyCommandIsOneLine(h: Host, windows: bool)
    requires OneLine(h.device) && OneLine(h.executable) && OneLine(h.setupPath)
    ensures var line := ProxyCommand(h, windows); OneLine(line) && |line| > 13 && line[|line| - 1] == '"'
  {
    var a, b, c := Quoted(h.executable, windows), Quoted(h.setupPath, windows), Quoted(h.device, windows);
    QuotedIsOneLine(h.executable, windows);
    QuotedIsOneLine(h.setupPath, windows);
    QuotedIsOneLine(h.device, windows);
    hide Quoted;
    assert OneLine("ProxyCommand ") && OneLine(" --proxy --setup-code-file ") && OneLine(" --target ");
    hide OneLine;
    OneLineConcat(" --target ", c);
    OneLineConcat(b, " --target " + c);
    OneLineConcat(" --proxy --setup-code-file ", b + (" --target " + c));
    OneLineConcat(a, " --proxy --setup-code-file " + (b + (" --target " + c)));
    OneLineConcat("ProxyCommand ", a + (" --proxy --setup-code-file " + (b + (" --target " + c))));
  }

  lemma EightOneLine(lines: Block)
    requires |lines| == 8
    requires OneLine(lines[0]) && OneLine(lines[1]) && OneLine(lines[2]) && OneLine(lines[3])
    requires OneLine(lines[4]) && OneLine(lines[5]) && OneLine(lines[6]) && OneLine(lines[7])
    ensures AllOneLine(lines)
  {
    hide OneLine;
  }

  lemma FixedNames()
    ensures OneLine(HOST_PREFIX) && OneLine(ALIAS_PREFIX) && OneLine("User ") && OneLine("\t")
  {
  }

  lemma FixedLines()
    ensures OneLine("\t" + "HostName rust-ssh-proxy") && OneLine("\t" + "ControlMaster no")
    ensures OneLine("\t" + "ControlPersist no") && OneLine("\t" + "ControlPath none")
  {
  }

  lemma HostLinesAreOneLine(h: Host, windows: bool)
    requires Checked(h) && OneLine(h.executable) && OneLine(h.setupPath)
    ensures AllOneLine(HostLines(h, windows))
  {
    NameIsOneLine(h.alias);
    NameIsOneLine(h.device);
    ProxyCommandIsOneLine(h, windows);
    FixedNames();
    FixedLines();
    assert OneLine(h.user);
    hide ProxyCommand;
    hide OneLine;
    hide ValidUser;
    OneLineConcat(HOST_PREFIX, h.alias);
    OneLineConcat(ALIAS_PREFIX, h.device);
    OneLineConcat("\t", ALIAS_PREFIX + h.device);
    OneLineConcat("User ", h.user);
    OneLineConcat("\t", "User " + h.user);
    OneLineConcat("\t", ProxyCommand(h, windows));
    EightOneLine(HostLines(h, windows));
  }

  lemma {:induction false} EscapedKeeps(value: string, windows: bool, c: char)
    requires c in value
    ensures c in Escaped(value, windows)
  {
    if c != value[0] {
      EscapedKeeps(value[1..], windows, c);
    }
  }

  /** A break in a path is a break in the command. */
  lemma PathsAreInTheCommand(h: Host, windows: bool)
    requires OneLine(ProxyCommand(h, windows))
    ensures OneLine(h.executable) && OneLine(h.setupPath)
  {
    var executable, setupPath := Escaped(h.executable, windows), Escaped(h.setupPath, windows);
    forall c: char | c in h.executable || c in h.setupPath
      ensures c in executable || c in setupPath
    {
      if c in h.executable {
        EscapedKeeps(h.executable, windows, c);
      } else {
        EscapedKeeps(h.setupPath, windows, c);
      }
    }
    hide Escaped;
    assert forall c: char :: c in executable || c in setupPath ==> c in ProxyCommand(h, windows);
  }

  // ---------------------------------------------------------------- the end marker in a block

  predicate Special(c: char) {
    c in "\"\\$`"
  }

  lemma {:induction false} EscapedPrefix(m: string, value: string, windows: bool)
    requires forall i :: 0 <= i < |m| ==> !Special(m[i])
    ensures m <= Escaped(value, windows) <==> m <= value
    decreases |value|
  {
    if value != "" && m != "" {
      var head := Escaped(value, windows)[..|Escaped(value, windows)| - |Escaped(value[1..], windows)|];
      assert Escaped(value, windows) == head + Escaped(value[1..], windows);
      assert !Special(m[0]);
      if head == [value[0]] {
        EscapedPrefix(m[1..], value[1..], windows);
        assert Escaped(value, windows)[1..] == Escaped(value[1..], windows);
      } else {
        assert Special(head[0]) && Special(value[0]);
      }
    }
  }

  lemma OccursFirst(t: string, m: string)
    ensures OccursAt(t, m, 0) <==> m <= t
  {
  }

  lemma OccursBehind(head: string, t: string, m: string)
    requires Occurs(t, m)
    ensures Occurs(head + t, m)
  {
    var i: nat :| OccursAt(t, m, i);
    assert (head + t)[|head|..] == t;
    OccursInSuffix(head + t, |head|, m, i);
  }

  /** Either it is the front of the text, or it occurs behind the first character. */
  lemma OccursSplit(t: string, m: string)
    requires t != "" && m != ""
    ensures Occurs(t, m) <==> m <= t || Occurs(t[1..], m)
  {
    OccursFirst(t, m);
    if Occurs(t[1..], m) {
      OccursBehind([t[0]], t[1..], m);
      assert [t[0]] + t[1..] == t;
    }
    if Occurs(t, m) && !(m <= t) {
      var i: nat :| OccursAt(t, m, i);
      OccursInSuffix(t, 1, m, i - 1);
    }
  }

  /** Escaping neither makes nor breaks an end marker. */
  lemma {:induction false} EscapedHoldsMarker(value: string, windows: bool)
    ensures Occurs(Escaped(value, windows), END) <==> Occurs(value, END)
  {
    if value != "" {
      var e, rest := Escaped(value, windows), Escaped(value[1..], windows);
      EscapedHoldsMarker(value[1..], windows);
      EscapedPrefix(END, value, windows);
      OccursSplit(value, END);
      OccursSplit(e, END);
      if e[1..] != rest {
        assert e[1..][1..] == rest && Special(e[1]);
        OccursSplit(e[1..], END);
      }
    }
  }

  lemma OccursAcrossQuote(a: string, b: string)
    ensures Occurs(a + "\"" + b, END) <==> Occurs(a, END) || Occurs(b, END)
  {
    hide OccursAt;
    forall i: nat
      ensures OccursAt(a + "\"" + b, END, i) <==> OccursAt(a, END, i) || (i > |a| && OccursAt(b, END, i - |a| - 1))
    {
      OccursAround(a, '"', b, END, i);
    }
    if Occurs(b, END) {
      var i: nat :| OccursAt(b, END, i);
      assert OccursAt(a + "\"" + b, END, i + |a| + 1);
    }
  }

  /** The marker starts with a number sign and a space. */
  lemma NoMarkerIn(line: string)
    requires forall i :: 0 <= i < |line| - 1 ==> line[i] != '#' || line[i + 1] != ' '
    ensures !Occurs(line, END)
  {
    forall i: nat | OccursAt(line, END, i)
      ensures false
    {
      MarkerStart(line, i);
    }
  }

  lemma MarkerStart(line: string, i: nat)
    requires OccursAt(line, END, i)
    ensures i + 1 < |line| && line[i] == '#' && line[i + 1] == ' '
  {
    assert line[i..i + |END|][0] == '#' && line[i..i + |END|][1] == ' ';
  }

  lemma {:induction false} EscapedName(name: string, windows: bool)
    requires forall i :: 0 <= i < |name| ==> Auth.IdChar(name[i])
    ensures Escaped(name, windows) == name
  {
    if name != "" {
      assert Auth.IdChar(name[0]);
      EscapedName(name[1..], windows);
    }
  }

  lemma Associate(a: string, b: string, c: string)
    ensures a + b + c == a + (b + c)
  {
  }

  lemma Requoted(value: string, rest: string)
    ensures "\"" + value + "\"" + rest == "\"" + (value + "\"" + rest)
  {
  }

  /** The command, cut at the quotes that the code writes. */
  lemma CommandParts(h: Host, windows: bool)
    ensures var a, b, c := Escaped(h.executable, windows), Escaped(h.setupPath, windows), Escaped(h.device, windows);
      ProxyCommand(h, windows) == "ProxyCommand " + "\"" + (a + "\"" + (" --proxy --setup-code-file " + "\""
        + (b + "\"" + (" --target " + "\"" + (c + "\"" + "")))))
  {
    var a, b, c := Escaped(h.executable, windows), Escaped(h.setupPath, windows), Escaped(h.device, windows);
    hide Escaped;
    var last := " --target " + Quoted(h.device, windows);
    var middle := " --proxy --setup-code-file " + (Quoted(h.setupPath, windows) + last);
    Requoted(c, "");
    assert Quoted(h.device, windows) == "\"" + (c + "\"" + "");
    Associate(" --target ", "\"", c + "\"" + "");
    Requoted(b, last);
    Associate(" --proxy --setup-code-file ", "\"", b + "\"" + last);
    Requoted(a, middle);
    Associate("ProxyCommand ", "\"", a + "\"" + middle);
  }

  /** The command holds an end marker exactly when one of the two paths does. */
  lemma CommandHoldsMarker(h: Host, windows: bool)
    requires Auth.ValidDeviceId(h.device)
    ensures Occurs(ProxyCommand(h, windows), END) <==> Occurs(h.executable, END) || Occurs(h.setupPath, END)
  {
    CommandParts(h, windows);
    EscapedName(h.device, windows);
    EscapedHoldsMarker(h.executable, windows);
    EscapedHoldsMarker(h.setupPath, windows);
    NoMarkerIn("ProxyCommand ");
    NoMarkerIn(" --proxy --setup-code-file ");
    NoMarkerIn(" --target ");
    NoMarkerIn(h.device);
    NoMarkerIn("");
    hide *;
    var a, b, c := Escaped(h.executable, windows), Escaped(h.setupPath, windows), Escaped(h.device, windows);
    var third := " --target " + "\"" + (c + "\"" + "");
    var second := " --proxy --setup-code-file " + "\"" + (b + "\"" + third);
    OccursAcrossQuote(c, "");
    OccursAcrossQuote(" --target ", c + "\"" + "");
    OccursAcrossQuote(b, third);
    OccursAcrossQuote(" --proxy --setup-code-file ", b + "\"" + third);
    OccursAcrossQuote(a, second);
    OccursAcrossQuote("ProxyCommand ", a + "\"" + second);
  }

  lemma NameHoldsNoMarker(prefix: string, name: string)
    requires prefix != "" && prefix[|prefix| - 1] == ' ' && '#' !in prefix
    requires forall i :: 0 <= i < |name| ==> name[i] != ' '
    ensures !Occurs(prefix + name, END)
  {
    NoMarkerIn(prefix + name);
  }

  lemma LinesHoldMarker(h: Host, windows: bool)
    requires Checked(h)
    ensures Free(HostLines(h, windows), END) <==> !Occurs(h.executable, END) && !Occurs(h.setupPath, END)
  {
    CommandHoldsMarker(h, windows);
    NameHoldsNoMarker(HOST_PREFIX, h.alias);
    NameHoldsNoMarker("\t" + ALIAS_PREFIX, h.device);
    NameHoldsNoMarker("\tUser ", h.user);
    assert "\t" + (ALIAS_PREFIX + h.device) == "\t" + ALIAS_PREFIX + h.device;
    assert "\t" + ("User " + h.user) == "\tUser " + h.user;
    NoMarkerIn("\t" + "HostName rust-ssh-proxy");
    NoMarkerIn("\t" + "ControlMaster no");
    NoMarkerIn("\t" + "ControlPersist no");
    NoMarkerIn("\t" + "ControlPath none");
    IndentedMarker(ProxyCommand(h, windows));
    hide Occurs;
    hide ProxyCommand;
    hide Checked;
    assert HostLines(h, windows)[7] == "\t" + ProxyCommand(h, windows);
  }

  lemma IndentedMarker(line: string)
    ensures Occurs("\t" + line, END) <==> Occurs(line, END)
  {
    OccursSplit("\t" + line, END);
    assert ("\t" + line)[0] == '\t' && END[0] == '#' && ("\t" + line)[1..] == line;
  }

  // ---------------------------------------------------------------- the block as the editor sees it

  lemma {:induction false} ToCrLfAppend(a: string, b: string)
    ensures ToCrLf(a + b) == ToCrLf(a) + ToCrLf(b)
  {
    if a == "" {
      assert a + b == b;
    } else {
      ToCrLfAppend(a[1..], b);
      assert (a + b)[0] == a[0] && (a + b)[1..] == a[1..] + b;
      var head := if a[0] == '\n' then "\r\n" else [a[0]];
      assert ToCrLf(a + b) == head + ToCrLf(a[1..] + b);
      assert ToCrLf(a) == head + ToCrLf(a[1..]);
      hide ToCrLf;
      Associate(head, ToCrLf(a[1..]), ToCrLf(b));
    }
  }

  lemma {:induction false} ToCrLfOfLine(line: string)
    requires '\n' !in line
    ensures ToCrLf(line) == line
  {
    if line != "" {
      ToCrLfOfLine(line[1..]);
    }
  }

  lemma CrLfLine(line: string, rest: string)
    requires OneLine(line)
    ensures ToCrLf(line + "\n" + rest) == line + "\r\n" + ToCrLf(rest)
  {
    ToCrLfOfLine(line);
    ToCrLfAppend(line + "\n", rest);
    ToCrLfAppend(line, "\n");
    assert ToCrLf("\n") == "\r\n" + ToCrLf("");
  }

  /** Joining with CR LF is joining with LF and expanding. */
  lemma {:induction false} CrLfJoin(lines: seq<string>)
    requires lines != [] && AllOneLine(lines)
    ensures JoinWith(lines, "\r\n") + "\r\n" == ToCrLf(Unlines(lines))
  {
    var head, tail := lines[0], lines[1..];
    assert OneLine(head) && AllOneLine(tail);
    CrLfLine(head, Unlines(tail));
    if tail == [] {
      assert ToCrLf(Unlines(tail)) == "";
    } else {
      CrLfJoin(tail);
      hide ToCrLf;
      hide Unlines;
      Associate(head + "\r\n", JoinWith(tail, "\r\n"), "\r\n");
    }
  }

  lemma {:induction false} UnlinesNoCr(lines: seq<string>)
    requires AllOneLine(lines)
    ensures NoCr(Unlines(lines))
  {
    if lines != [] {
      UnlinesNoCr(lines[1..]);
    }
  }

  /** Normalised and trimmed, the block is its lines, whatever the platform. */
  lemma HostBlockText(h: Host, windows: bool)
    requires Checked(h) && OneLine(h.executable) && OneLine(h.setupPath)
    ensures Written(h, windows) == JoinWith(HostLines(h, windows), "\n")
    ensures Editable(JoinWith(HostLines(h, windows), "\n"))
  {
    var lines := HostLines(h, windows);
    HostLinesAreOneLine(h, windows);
    UnlinesNoCr(lines);
    JoinIsUnlines(lines);
    if windows {
      CrLfJoin(lines);
      WindowsRoundTrip(Unlines(lines));
    } else {
      NormalizeKeeps(Unlines(lines));
    }
    ProxyCommandIsOneLine(h, windows);
    JoinEnds(lines);
  }

  lemma JoinEnds(lines: seq<string>)
    requires |lines| > 1 && StartsHost(lines[0]) && AllOneLine(lines)
    requires var last := lines[|lines| - 1]; last != "" && last[|last| - 1] == '"'
    ensures var text := JoinWith(lines, "\n"); Editable(text) && TrimEnd(text + "\n") == text
  {
    var text := JoinWith(lines, "\n");
    InitLast(lines);
    JoinSnoc(lines[..|lines| - 1], lines[|lines| - 1]);
    assert text[|text| - 1] == '"' && !IsSpace('"') && IsSpace('\n');
    assert (text + "\n")[..|text|] == text;
    JoinCons(lines[0], lines[1..], "\n");
    assert [lines[0]] + lines[1..] == lines;
    JoinIsUnlines(lines);
    UnlinesNoCr(lines);
    NoCrParts(text + "\n", |text|);
  }

  lemma EndsVisibly(line: string)
    requires line != "" && !IsSpace(line[|line| - 1])
    ensures !Blank(line)
  {
    TrimStartIsSuffix(line);
    var t := TrimStart(line);
    assert t != "" && t[|t| - 1] == line[|line| - 1];
  }

  predicate Indented(line: string) {
    line != "" && line[0] == '\t'
  }

  lemma IndentedBlock(block: Block)
    requires |block| == 8 && !Blank(block[0])
    requires Indented(block[1]) && Indented(block[2]) && Indented(block[3]) && Indented(block[4])
    requires Indented(block[5]) && Indented(block[6]) && Indented(block[7])
    ensures IsBlock(block)
  {
    hide Blank;
    forall j | 1 <= j < |block|
      ensures !StartsHost(block[j])
    {
      assert Indented(block[j]);
    }
  }

  lemma FirstLineIsNotBlank(alias: string)
    ensures !Blank(HOST_PREFIX + alias)
  {
    HostIsNotBlank(HOST_PREFIX + alias);
  }

  lemma FixedIndents()
    ensures Indented("\t" + "HostName rust-ssh-proxy") && Indented("\t" + "ControlMaster no")
    ensures Indented("\t" + "ControlPersist no") && Indented("\t" + "ControlPath none")
  {
  }

  lemma VaryingIndents(h: Host, windows: bool)
    ensures Indented("\t" + (ALIAS_PREFIX + h.device)) && Indented("\t" + ("User " + h.user))
    ensures Indented("\t" + ProxyCommand(h, windows))
  {
    hide ProxyCommand;
  }

  lemma HostLinesAreABlock(h: Host, windows: bool)
    ensures IsBlock(HostLines(h, windows))
  {
    FirstLineIsNotBlank(h.alias);
    FixedIndents();
    VaryingIndents(h, windows);
    hide IsBlock;
    hide ProxyCommand;
    hide Blank;
    hide Indented;
    IndentedBlock(HostLines(h, windows));
  }

  /** It is one block, with nothing to trim. */
  lemma HostBlockReadsBack(h: Host, windows: bool)
    requires Checked(h) && OneLine(h.executable) && OneLine(h.setupPath)
    ensures BlocksIn(Written(h, windows)) == [HostLines(h, windows)]
  {
    HostBlockText(h, windows);
    var lines := HostLines(h, windows);
    HostLinesAreOneLine(h, windows);
    ProxyCommandIsOneLine(h, windows);
    EndsVisibly(lines[7]);
    HostLinesAreABlock(h, windows);
    assert lines[7] != "" && |lines| == 8;
    hide HostLines;
    hide Written;
    hide Blank;
    hide IsBlock;
    LinesOfJoin(lines);
    GroupOneBlock(lines, []);
    assert lines + [] == lines && [lines] + Group([], []) == [lines];
    assert CanonAll([lines]) == [Canon(lines)];
  }

  /** What a line of joined lines holds, the joined lines hold. */
  lemma JoinIsFreeBack(lines: seq<string>, m: string)
    requires AllOneLine(lines) && lines != [] && lines[|lines| - 1] != "" && NoCr(JoinWith(lines, "\n"))
    requires !Occurs(JoinWith(lines, "\n"), m)
    ensures Free(lines, m)
  {
    LinesOfJoin(lines);
    forall k | 0 <= k < |lines|
      ensures !Occurs(lines[k], m)
    {
      if Occurs(lines[k], m) {
        LineOccurs(JoinWith(lines, "\n"), k, m);
      }
    }
  }

  lemma AcceptableWithoutMarker(h: Host, windows: bool)
    requires Checked(h) && OneLine(h.executable) && OneLine(h.setupPath)
    ensures Acceptable(Written(h, windows)) <==> !Occurs(h.executable, END) && !Occurs(h.setupPath, END)
  {
    var lines := HostLines(h, windows);
    HostBlockText(h, windows);
    HostLinesAreOneLine(h, windows);
    LinesHoldMarker(h, windows);
    assert lines[7] != "" && |lines| == 8;
    hide HostLines;
    hide Written;
    hide Occurs;
    hide Checked;
    if Free(lines, END) {
      JoinIsFree(lines, END);
    } else if !Occurs(JoinWith(lines, "\n"), END) {
      JoinIsFreeBack(lines, END);
    }
  }

  /**
   With the checks `install_ssh_host` makes, the block of a host reads back as its eight lines, and does not
   end the managed part early, exactly when neither path breaks a line or holds the end marker.
   */
  lemma HostBlockIsOneBlock(h: Host, windows: bool)
    requires Checked(h)
    ensures BlocksIn(Written(h, windows)) == [HostLines(h, windows)] && Acceptable(Written(h, windows)) <==> PlainPaths(h)
  {
    hide Checked;
    if OneLine(h.executable) && OneLine(h.setupPath) {
      HostBlockReadsBack(h, windows);
      AcceptableWithoutMarker(h, windows);
    } else if BlocksIn(Written(h, windows)) == [HostLines(h, windows)] {
      ReadsBackOneLine(h, windows);
    }
  }

  lemma FirstCanon(groups: seq<Block>)
    requires CanonAll(groups) != []
    ensures groups != [] && CanonAll(groups)[0] <= groups[0]
  {
    hide Blank;
  }

  lemma ReadsBackOneLine(h: Host, windows: bool)
    requires BlocksIn(Written(h, windows)) == [HostLines(h, windows)]
    ensures OneLine(h.executable) && OneLine(h.setupPath)
  {
    NormalizeIsOnePass(HostBlock(h, windows));
    NoCrParts(Normalize(HostBlock(h, windows)), |Written(h, windows)|);
    LinesAreOneLine(Written(h, windows));
    GroupLinesAreLines([], Lines(Written(h, windows)));
    FirstCanon(Group([], Lines(Written(h, windows))));
    assert HostLines(h, windows)[7] == "\t" + ProxyCommand(h, windows);
    hide Written;
    hide Group;
    hide Lines;
    hide ProxyCommand;
    hide HostLines;
    var first := Group([], Lines(Written(h, windows)))[0];
    assert HostLines(h, windows)[7] == first[7] && OneLine(first[7]);
    PathsAreInTheCommand(h, windows);
  }

  lemma ShortHostIsChecked(executable: string, setupPath: string)
    ensures Checked(Host("pc", "pc", "me", executable, setupPath))
  {
  }

  /** The checks let through a path that breaks a line: the block does not read back. */
  lemma BrokenPathIsNotRefused()
    ensures var h := Host("pc", "pc", "me", "/opt/a\nHost b", "/etc/setup");
      Checked(h) && BlocksIn(Written(h, false)) != [HostLines(h, false)]
  {
    var path := "/opt/a\nHost b";
    assert path[6] == '\n';
    var h := Host("pc", "pc", "me", path, "/etc/setup");
    ShortHostIsChecked(path, "/etc/setup");
    assert !OneLine(path);
    hide *;
    if BlocksIn(Written(h, false)) == [HostLines(h, false)] {
      ReadsBackOneLine(h, false);
    }
  }

  /** And a path that holds the end marker: the block ends the managed part inside itself. */
  lemma MarkerInPathIsNotRefused()
    ensures var h := Host("pc", "pc", "me", "/opt/a", "/etc/" + END); Checked(h) && Occurs(Written(h, false), END)
  {
    var path := "/etc/" + END;
    var h := Host("pc", "pc", "me", "/opt/a", path);
    MarkerIsOneLine("/etc/");
    ShortHostIsChecked("/opt/a", path);
    assert OneLine("/opt/a");
    hide *;
    MarkerEndsThePart(h, false);
  }

  lemma OccursInItself(m: string)
    ensures Occurs(m, m)
  {
    OccursFirst(m, m);
  }

  lemma OneMarkerLine()
    ensures OneLine(END)
  {
  }

  lemma MarkerIsOneLine(prefix: string)
    requires OneLine(prefix)
    ensures OneLine(prefix + END) && Occurs(prefix + END, END)
  {
    OneMarkerLine();
    OneLineConcat(prefix, END);
    hide OneLine;
    OccursInItself(END);
    OccursBehind(prefix, END, END);
  }

  lemma MarkerEndsThePart(h: Host, windows: bool)
    requires Checked(h) && OneLine(h.executable) && OneLine(h.setupPath) && Occurs(h.setupPath, END)
    ensures Occurs(Written(h, windows), END)
  {
    HostBlockText(h, windows);
    AcceptableWithoutMarker(h, windows);
    hide HostLines;
    hide Written;
    hide Checked;
    hide Occurs;
  }

  // ---------------------------------------------------------------- whom a block is for

  lemma TrimOfName(name: string)
    requires name != "" && !IsSpace(name[0]) && !IsSpace(name[|name| - 1])
    ensures Trim(name) == name
  {
  }

  lemma NamedHost(h: Host, alias: string)
    requires ValidAlias(h.alias)
    ensures NamesHost(HOST_PREFIX + h.alias, alias) <==> alias == h.alias
  {
    NameIsOneLine(h.alias);
    TrimOfName(h.alias);
    assert (HOST_PREFIX + h.alias)[|HOST_PREFIX|..] == h.alias;
  }

  /** An indented line that differs from the alias directive in one of its first letters names no device. */
  lemma OtherDirective(rest: string, k: nat, device: string)
    requires k < |rest| && k < |ALIAS_PREFIX| && rest[k] != ALIAS_PREFIX[k]
    requires !IsSpace(rest[0])
    ensures !NamesDevice("\t" + rest, device)
  {
    assert ("\t" + rest)[1..] == rest && TrimStart("\t" + rest) == rest;
    assert TrimEnd(rest) <= rest;
    if k < |TrimEnd(rest)| {
      assert TrimEnd(rest)[k] == rest[k];
    }
    assert (ALIAS_PREFIX + device)[k] == ALIAS_PREFIX[k];
  }

  lemma AliasDirective(owner: string, device: string)
    requires Auth.ValidDeviceId(owner)
    ensures NamesDevice("\t" + (ALIAS_PREFIX + owner), device) <==> device == owner
  {
    var line := ALIAS_PREFIX + owner;
    NameIsOneLine(owner);
    TrimOfName(line);
    assert ("\t" + line)[1..] == line && TrimStart("\t" + line) == TrimStart(line);
    assert (ALIAS_PREFIX + device)[|ALIAS_PREFIX|..] == device && line[|ALIAS_PREFIX|..] == owner;
  }

  lemma HostDirective(h: Host, device: string)
    requires ValidAlias(h.alias)
    ensures !NamesDevice(HOST_PREFIX + h.alias, device)
  {
    NameIsOneLine(h.alias);
    TrimOfName(HOST_PREFIX + h.alias);
    assert (HOST_PREFIX + h.alias)[4] == ' ' && (ALIAS_PREFIX + device)[4] == 'K';
  }

  /** Of eight lines, only the third may name a device. */
  lemma ThirdOfEight(lines: Block, device: string)
    requires |lines| == 8 && !NamesDevice(lines[0], device) && !NamesDevice(lines[1], device)
    requires !NamesDevice(lines[3], device) && !NamesDevice(lines[4], device) && !NamesDevice(lines[5], device)
    requires !NamesDevice(lines[6], device) && !NamesDevice(lines[7], device)
    ensures AnyNamesDevice(lines, device) <==> NamesDevice(lines[2], device)
  {
    hide NamesDevice;
  }

  lemma FixedDirectives(device: string)
    ensures !NamesDevice("\t" + "HostName rust-ssh-proxy", device)
    ensures !NamesDevice("\t" + "ControlMaster no", device)
    ensures !NamesDevice("\t" + "ControlPersist no", device)
    ensures !NamesDevice("\t" + "ControlPath none", device)
  {
    hide NamesDevice;
    OtherDirective("HostName rust-ssh-proxy", 4, device);
    OtherDirective("ControlMaster no", 0, device);
    OtherDirective("ControlPersist no", 0, device);
    OtherDirective("ControlPath none", 0, device);
  }

  lemma VaryingDirectives(h: Host, windows: bool, device: string)
    ensures !NamesDevice("\t" + ("User " + h.user), device)
    ensures !NamesDevice("\t" + ProxyCommand(h, windows), device)
  {
    hide NamesDevice;
    hide Quoted;
    OtherDirective("User " + h.user, 0, device);
    OtherDirective(ProxyCommand(h, windows), 0, device);
  }

  lemma BlockNamesItsDevice(h: Host, windows: bool, device: string)
    requires ValidAlias(h.alias) && Auth.ValidDeviceId(h.device)
    ensures AnyNamesDevice(HostLines(h, windows), device) <==> h.device == device
  {
    hide NamesDevice;
    hide AnyNamesDevice;
    hide ProxyCommand;
    HostDirective(h, device);
    AliasDirective(h.device, device);
    FixedDirectives(device);
    VaryingDirectives(h, windows, device);
    ThirdOfEight(HostLines(h, windows), device);
  }

  /** A block is for its own host name and its own device, and for no other. */
  lemma BlockNamesItsHost(h: Host, windows: bool, alias: string, device: string)
    requires ValidAlias(h.alias) && Auth.ValidDeviceId(h.device)
    ensures Replaces(HostLines(h, windows), alias, device) <==> h.alias == alias || h.device == device
  {
    BlockNamesItsDevice(h, windows, device);
    NamedHost(h, alias);
    hide NamesHost;
    hide AnyNamesDevice;
    hide ProxyCommand;
    assert HostLines(h, windows)[0] == HOST_PREFIX + h.alias;
  }

  // ---------------------------------------------------------------- a list of hosts

  /** The hosts with another name and another device. */
  function Others(hosts: seq<Host>, h: Host): seq<Host> {
    if hosts == [] then []
    else (if hosts[0].alias == h.alias || hosts[0].device == h.device then [] else [hosts[0]]) + Others(hosts[1..], h)
  }

  /** The managed hosts after a series of installations. */
  function Installed(series: seq<Host>): seq<Host> {
    if series == [] then []
    else Others(Installed(series[..|series| - 1]), series[|series| - 1]) + [series[|series| - 1]]
  }

  function AllHostLines(hosts: seq<Host>, windows: bool): seq<Block> {
    if hosts == [] then [] else [HostLines(hosts[0], windows)] + AllHostLines(hosts[1..], windows)
  }

  ghost predicate AllInstallable(hosts: seq<Host>) {
    forall i :: 0 <= i < |hosts| ==> Installable(hosts[i])
  }

  lemma {:induction false} AllHostLinesAppend(a: seq<Host>, b: seq<Host>, windows: bool)
    ensures AllHostLines(a + b, windows) == AllHostLines(a, windows) + AllHostLines(b, windows)
  {
    hide HostLines;
    if a == [] {
      assert a + b == b;
    } else {
      AllHostLinesAppend(a[1..], b, windows);
      assert (a + b)[1..] == a[1..] + b && (a + b)[0] == a[0];
    }
  }

  /** Keeping blocks is keeping hosts. */
  lemma {:induction false} KeepIsOthers(hosts: seq<Host>, h: Host, windows: bool)
    requires AllInstallable(hosts)
    ensures Keep(AllHostLines(hosts, windows), h.alias, h.device) == AllHostLines(Others(hosts, h), windows)
    ensures AllInstallable(Others(hosts, h))
  {
    hide HostLines;
    hide Replaces;
    if hosts != [] {
      var head, tail := hosts[0], hosts[1..];
      assert AllInstallable(tail) && Installable(head);
      KeepIsOthers(tail, h, windows);
      BlockNamesItsHost(head, windows, h.alias, h.device);
      var all, rest := AllHostLines(hosts, windows), Others(tail, h);
      assert all[0] == HostLines(head, windows) && all[1..] == AllHostLines(tail, windows);
      AllHostLinesAppend([head], rest, windows);
      assert AllHostLines([head], windows) == [HostLines(head, windows)];
      assert [] + rest == rest && [] + Keep(all[1..], h.alias, h.device) == Keep(all[1..], h.alias, h.device);
    }
  }

  function EditFor(h: Host, windows: bool): (edit: Edit)
    ensures edit.host == h.alias && edit.device == h.device
  {
    Edit(Written(h, windows), h.device, h.alias)
  }

  function EditsFor(series: seq<Host>, windows: bool): (edits: seq<Edit>)
    ensures |edits| == |series|
    ensures forall i :: 0 <= i < |series| ==> edits[i] == EditFor(series[i], windows)
  {
    seq(|series|, i requires 0 <= i < |series| => EditFor(series[i], windows))
  }

  /** One installation, on blocks and on hosts. */
  lemma InstallStep(hosts: seq<Host>, h: Host, windows: bool)
    requires AllInstallable(hosts) && Installable(h)
    ensures Keep(AllHostLines(hosts, windows), h.alias, h.device) + BlocksIn(EditFor(h, windows).block)
            == AllHostLines(Others(hosts, h) + [h], windows)
    ensures AllInstallable(Others(hosts, h) + [h])
  {
    HostBlockIsOneBlock(h, windows);
    KeepIsOthers(hosts, h, windows);
    hide Installable;
    hide HostLines;
    hide BlocksIn;
    hide Written;
    hide Keep;
    hide Others;
    AllHostLinesAppend(Others(hosts, h), [h], windows);
    assert AllHostLines([h], windows) == [HostLines(h, windows)];
  }

  lemma {:induction false} ModelOfSeries(series: seq<Host>, windows: bool)
    requires AllInstallable(series)
    ensures EditAll([], EditsFor(series, windows)) == AllHostLines(Installed(series), windows)
    ensures AllInstallable(Installed(series))
  {
    hide Installable;
    hide EditFor;
    hide BlocksIn;
    hide Keep;
    hide Others;
    if series != [] {
      var init, h := series[..|series| - 1], series[|series| - 1];
      assert AllInstallable(init) && Installable(h);
      ModelOfSeries(init, windows);
      InstallStep(Installed(init), h, windows);
      assert EditsFor(series, windows)[..|init|] == EditsFor(init, windows);
      assert EditFor(h, windows).host == h.alias && EditFor(h, windows).device == h.device;
      hide AllHostLines;
    }
  }

  ghost predicate Distinct(hosts: seq<Host>) {
    forall i, j :: 0 <= i < j < |hosts| ==> hosts[i].alias != hosts[j].alias && hosts[i].device != hosts[j].device
  }

  lemma {:induction false} OthersDiffer(hosts: seq<Host>, h: Host)
    ensures forall o :: o in Others(hosts, h) <==> o in hosts && o.alias != h.alias && o.device != h.device
    ensures Distinct(hosts) ==> Distinct(Others(hosts, h))
  {
    if hosts != [] {
      OthersDiffer(hosts[1..], h);
      var rest := Others(hosts[1..], h);
      if Distinct(hosts) {
        assert Distinct(hosts[1..]);
        forall o | o in hosts[1..]
          ensures o.alias != hosts[0].alias && o.device != hosts[0].device
        {
          var k :| 0 <= k < |hosts[1..]| && hosts[1..][k] == o;
          assert hosts[k + 1] == o;
        }
      }
    }
  }

  /** No two managed hosts share a name or a device, and the latest installation of each device is there. */
  lemma {:induction false} InstalledHostsAreDistinct(series: seq<Host>)
    ensures Distinct(Installed(series))
    ensures series != [] ==> Installed(series) != [] && Installed(series)[|Installed(series)| - 1] == series[|series| - 1]
  {
    if series != [] {
      var init, h := series[..|series| - 1], series[|series| - 1];
      InstalledHostsAreDistinct(init);
      OthersDiffer(Installed(init), h);
    }
  }

  lemma EditIsAcceptable(h: Host, windows: bool)
    requires Installable(h)
    ensures Acceptable(EditFor(h, windows).block)
  {
    HostBlockIsOneBlock(h, windows);
  }

  /**
   A file without markers, after any series of installations: its managed part lists exactly the hosts that
   the series leaves, each under one name and for one device, and the user's own text is as it was, up to
   white space at its end.
   */
  lemma InstallationsInAFreshFile(text: string, series: seq<Host>, windows: bool)
    requires NoCr(text) && MarkerFree(text) && AllInstallable(series) && series != []
    ensures var result := ApplyAll(text, EditsFor(series, windows));
      && BlocksOf(result) == AllHostLines(Installed(series), windows) && Distinct(Installed(series))
      && UserTextKept(text, result, |series|)
  {
    assert SectionsOf(text) == Plain;
    hide NoCr;
    hide MarkerFree;
    hide Acceptable;
    hide EditFor;
    hide Installable;
    hide Distinct;
    hide ApplyAll;
    hide UserTextKept;
    var edits := EditsFor(series, windows);
    forall i | 0 <= i < |edits|
      ensures Acceptable(edits[i].block)
    {
      assert Installable(series[i]);
      EditIsAcceptable(series[i], windows);
    }
    EditsFollowTheModel(text, edits);
    ModelOfSeries(series, windows);
    InstalledHostsAreDistinct(series);
  }
}
