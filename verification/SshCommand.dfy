/** A host block as ssh reads it: its settings, and the command it runs to reach the device. */
module SshCommand {
  import opened Bytes
  import opened SshText
  import opened SshBlocks
  import opened SshHosts

  datatype Word = Word(value: string, rest: string)

  /**
   A text behind its opening quote, up to the closing one. A POSIX shell (section 2.2.3 of its command language)
   takes a backslash before one of four characters away, and would expand a dollar sign or a back quote; on
   Windows a doubled quote stands for one.
   */
  function ReadQuoted(t: string, windows: bool): (r: Option<Word>)
    ensures r.Some? ==> |r.value.rest| < |t|
  {
    if t == "" then None
    else if windows && t[0] == '"' && |t| > 1 && t[1] == '"' then Prefixed('"', ReadQuoted(t[2..], windows))
    else if t[0] == '"' then Some(Word("", t[1..]))
    else if windows then Prefixed(t[0], ReadQuoted(t[1..], windows))
    else if t[0] == '\\' && |t| > 1 && Special(t[1]) then Prefixed(t[1], ReadQuoted(t[2..], windows))
    else if t[0] == '$' || t[0] == '`' then None
    else Prefixed(t[0], ReadQuoted(t[1..], windows))
  }

  function Prefixed(c: char, word: Option<Word>): (r: Option<Word>)
    ensures r.Some? <==> word.Some?
    ensures r.Some? ==> r.value == Word([c] + word.value.value, word.value.rest)
  {
    match word
    case None => None
    case Some(w) => Some(Word([c] + w.value, w.rest))
  }

  /** A word without quotes ends at a space. */
  function ReadPlain(t: string): (w: Word)
    ensures |w.rest| <= |t| && (t != "" && t[0] != ' ' ==> |w.rest| < |t|)
  {
    if t == "" || t[0] == ' ' then Word("", t)
    else Word([t[0]] + ReadPlain(t[1..]).value, ReadPlain(t[1..]).rest)
  }

  predicate Ended(rest: string) {
    rest == "" || rest[0] == ' '
  }

  function Behind(word: string, others: Option<seq<string>>): Option<seq<string>> {
    match others
    case None => None
    case Some(words) => Some([word] + words)
  }

  /** The words of a command line; none when a quote is not closed or something would be expanded. */
  function Words(t: string, windows: bool): Option<seq<string>>
    decreases |t|
  {
    if t == "" then Some([])
    else if t[0] == ' ' then Words(t[1..], windows)
    else if t[0] == '"' then
      var quoted := ReadQuoted(t[1..], windows);
      if quoted.Some? && Ended(quoted.value.rest) then Behind(quoted.value.value, Words(quoted.value.rest, windows)) else None
    else Behind(ReadPlain(t).value, Words(ReadPlain(t).rest, windows))
  }

  lemma Escapes(value: string, windows: bool, rest: string)
    requires value != ""
    ensures var tail := Escaped(value[1..], windows) + "\"" + rest;
      Escaped(value, windows) + "\"" + rest ==
      if windows then (if value[0] == '"' then ['"', '"'] else [value[0]]) + tail
      else (if Special(value[0]) then ['\\', value[0]] else [value[0]]) + tail
  {
    var c := value[0];
    var head := if windows then if c == '"' then "\"\"" else [c] else if c in "\"\\$`" then ['\\', c] else [c];
    assert Escaped(value, windows) == head + Escaped(value[1..], windows);
    hide Escaped;
    Regrouped(head, Escaped(value[1..], windows), rest);
  }

  lemma Regrouped(head: string, tail: string, rest: string)
    ensures head + tail + "\"" + rest == head + (tail + "\"" + rest)
  {
  }

  /** Whatever the value, quoting it and reading the quoted text gives it back. */
  lemma {:induction false} QuotedReads(value: string, windows: bool, rest: string)
    requires Ended(rest)
    ensures ReadQuoted(Escaped(value, windows) + "\"" + rest, windows) == Some(Word(value, rest))
  {
    if value == "" {
      assert Escaped(value, windows) + "\"" + rest == "\"" + rest;
      assert ("\"" + rest)[1..] == rest;
    } else {
      QuotedReads(value[1..], windows, rest);
      Escapes(value, windows, rest);
      var c, tail := value[0], Escaped(value[1..], windows) + "\"" + rest;
      assert [c] + value[1..] == value;
      hide Escaped;
      if windows && c == '"' {
        assert (['"', '"'] + tail)[2..] == tail;
      } else if !windows && Special(c) {
        assert (['\\', c] + tail)[2..] == tail;
      } else {
        assert ([c] + tail)[1..] == tail && ([c] + tail)[0] == c;
      }
    }
  }

  lemma QuotedWord(value: string, windows: bool, rest: string)
    requires Ended(rest)
    ensures Words(Quoted(value, windows) + rest, windows) == Behind(value, Words(rest, windows))
  {
    QuotedReads(value, windows, rest);
    var t := Quoted(value, windows) + rest;
    assert t[0] == '"' && t[1..] == Escaped(value, windows) + "\"" + rest;
  }

  predicate Simple(word: string) {
    word != "" && word[0] != '"' && forall i :: 0 <= i < |word| ==> word[i] != ' '
  }

  lemma {:induction false} PlainReads(word: string, rest: string)
    requires (forall i :: 0 <= i < |word| ==> word[i] != ' ') && Ended(rest)
    ensures ReadPlain(word + rest) == Word(word, rest)
  {
    if word == "" {
      assert word + rest == rest;
    } else {
      PlainReads(word[1..], rest);
      assert (word + rest)[1..] == word[1..] + rest && [word[0]] + word[1..] == word;
    }
  }

  /** A word without quotes, after its space. */
  lemma PlainWord(word: string, windows: bool, rest: string)
    requires Simple(word) && Ended(rest)
    ensures Words(" " + (word + rest), windows) == Behind(word, Words(rest, windows))
  {
    PlainReads(word, rest);
    var t := " " + (word + rest);
    assert t[0] == ' ' && t[1..] == word + rest && (word + rest)[0] == word[0];
  }

  lemma SpacedQuoted(value: string, windows: bool, rest: string)
    requires Ended(rest)
    ensures Words(" " + (Quoted(value, windows) + rest), windows) == Behind(value, Words(rest, windows))
  {
    QuotedWord(value, windows, rest);
    assert (" " + (Quoted(value, windows) + rest))[1..] == Quoted(value, windows) + rest;
  }

  const KEYWORD := "ProxyCommand "

  /** What follows the keyword in the line. */
  function CommandOf(h: Host, windows: bool): string {
    var line := ProxyCommand(h, windows);
    if |line| >= |KEYWORD| then line[|KEYWORD|..] else ""
  }

  lemma CommandInWords(h: Host, windows: bool)
    ensures ProxyCommand(h, windows) == KEYWORD + CommandOf(h, windows)
    ensures CommandOf(h, windows) ==
      Quoted(h.executable, windows) + (" " + ("--proxy" + (" " + ("--setup-code-file" + (" " + (Quoted(h.setupPath, windows)
        + (" " + ("--target" + (" " + (Quoted(h.device, windows) + ""))))))))))
  {
    var e, s, d := Quoted(h.executable, windows), Quoted(h.setupPath, windows), Quoted(h.device, windows);
    hide Quoted;
    assert |KEYWORD| == |"ProxyCommand "|;
    LastSpaces(d);
    FirstSpaces(s + (" " + ("--target" + (" " + (d + "")))));
  }

  lemma LastSpaces(d: string)
    ensures " --target " + d == " " + ("--target" + (" " + (d + "")))
  {
  }

  lemma FirstSpaces(s: string)
    ensures " --proxy --setup-code-file " + s == " " + ("--proxy" + (" " + ("--setup-code-file" + (" " + s))))
  {
  }

  /** The command of a host block names the program, the setup file and the device it was made for, whatever the paths. */
  lemma CommandReadsBack(h: Host, windows: bool)
    ensures ProxyCommand(h, windows) == KEYWORD + CommandOf(h, windows)
    ensures Words(CommandOf(h, windows), windows)
            == Some([h.executable, "--proxy", "--setup-code-file", h.setupPath, "--target", h.device])
  {
    CommandInWords(h, windows);
    hide Words;
    hide ProxyCommand;
    hide CommandOf;
    assert Simple("--proxy") && Simple("--setup-code-file") && Simple("--target");
    var last := " " + (Quoted(h.device, windows) + "");
    var target := " " + ("--target" + last);
    var path := " " + (Quoted(h.setupPath, windows) + target);
    var file := " " + ("--setup-code-file" + path);
    var proxy := " " + ("--proxy" + file);
    hide Quoted;
    SpacedQuoted(h.device, windows, "");
    PlainWord("--target", windows, last);
    SpacedQuoted(h.setupPath, windows, target);
    PlainWord("--setup-code-file", windows, path);
    PlainWord("--proxy", windows, file);
    QuotedWord(h.executable, windows, proxy);
    NoWords(windows);
    SixWords(h.executable, "--proxy", "--setup-code-file", h.setupPath, "--target", h.device);
  }

  lemma SixWords(a: string, b: string, c: string, d: string, e: string, f: string)
    ensures [a] + ([b] + ([c] + ([d] + ([e] + ([f] + []))))) == [a, b, c, d, e, f]
  {
  }

  lemma NoWords(windows: bool)
    ensures Words("", windows) == Some([])
  {
  }

  // ---------------------------------------------------------------- the settings of a block

  /** The value of the first line for a keyword, which is the one ssh takes. */
  function Setting(lines: Block, key: string): Option<string> {
    if lines == [] then None
    else if "\t" + key + " " <= lines[0] then Some(lines[0][|key| + 2..])
    else Setting(lines[1..], key)
  }

  lemma {:induction false} SettingAt(lines: Block, key: string, i: nat, value: string)
    requires i < |lines| && lines[i] == "\t" + (key + " " + value)
    requires forall j :: 0 <= j < i ==> !("\t" + key + " " <= lines[j])
    ensures Setting(lines, key) == Some(value)
  {
    if i == 0 {
      assert lines[0][..|key| + 2] == "\t" + key + " " && lines[0][|key| + 2..] == value;
    } else {
      SettingAt(lines[1..], key, i - 1, value);
    }
  }

  predicate Keyword(key: string) {
    forall i :: 0 <= i < |key| ==> key[i] != ' '
  }

  lemma SameKey(key: string, other: string, value: string)
    requires Keyword(key) && Keyword(other)
    requires "\t" + key + " " <= "\t" + (other + " " + value)
    ensures key == other
  {
    var head, line := "\t" + key + " ", "\t" + (other + " " + value);
    assert head[|key| + 1] == ' ' && line[|other| + 1] == ' ' && line[|key| + 1] == ' ';
    assert forall i :: 0 <= i < |key| ==> head[i + 1] == key[i];
    assert forall i :: 0 <= i < |other| ==> line[i + 1] == other[i];
    assert |key| == |other|;
  }

  /** Each line behind the first sets its own keyword. */
  lemma SettingIn(lines: Block, keys: seq<string>, values: seq<string>, i: nat)
    requires |keys| == |values| == |lines| && 1 <= i < |lines| && lines[0] != "" && lines[0][0] != '\t'
    requires forall j :: 1 <= j < |lines| ==> lines[j] == "\t" + (keys[j] + " " + values[j]) && Keyword(keys[j])
    requires forall j :: 1 <= j < i ==> keys[j] != keys[i]
    ensures Setting(lines, keys[i]) == Some(values[i])
  {
    forall j | 0 <= j < i
      ensures !("\t" + keys[i] + " " <= lines[j])
    {
      if j == 0 {
        assert ("\t" + keys[i] + " ")[0] == '\t';
      } else {
        if "\t" + keys[i] + " " <= lines[j] {
          SameKey(keys[i], keys[j], values[j]);
        }
      }
    }
    SettingAt(lines, keys[i], i, values[i]);
  }

  const KEYS: seq<string> :=
    ["Host", "HostName", "HostKeyAlias", "User", "ControlMaster", "ControlPersist", "ControlPath", "ProxyCommand"]

  lemma KeysAreKeywords()
    ensures forall j :: 0 <= j < 8 ==> Keyword(KEYS[j])
    ensures forall i, j :: 0 <= j < i < 8 ==> KEYS[j] != KEYS[i]
  {
    assert KEYS[0][0] == 'H' && KEYS[3][0] == 'U' && KEYS[4][0] == 'C' && KEYS[5][0] == 'C' && KEYS[6][0] == 'C';
    assert KEYS[7][0] == 'P' && KEYS[1][4] == 'N' && KEYS[2][4] == 'K' && KEYS[4][7] == 'M' && KEYS[1][0] == 'H';
    assert KEYS[2][0] == 'H' && |KEYS[0]| == 4 && |KEYS[1]| == 8 && |KEYS[6]| == 11 && |KEYS[4]| == 13 && |KEYS[5]| == 14;
  }

  /** What ssh is told about a device: its own key alias, its user, no shared connection, and the command above. */
  lemma HostSettings(h: Host, windows: bool)
    ensures var lines := HostLines(h, windows);
      && lines[0] == "Host " + h.alias
      && Setting(lines, "HostName") == Some("rust-ssh-proxy") && Setting(lines, "HostKeyAlias") == Some(h.device)
      && Setting(lines, "User") == Some(h.user)
      && Setting(lines, "ControlMaster") == Some("no") && Setting(lines, "ControlPersist") == Some("no")
      && Setting(lines, "ControlPath") == Some("none")
      && Setting(lines, "ProxyCommand") == Some(CommandOf(h, windows))
  {
    var lines, command := HostLines(h, windows), CommandOf(h, windows);
    CommandInWords(h, windows);
    Spelled(h, command);
    KeysAreKeywords();
    assert lines[0] == "Host " + h.alias && lines[0][0] == 'H';
    hide ProxyCommand;
    hide CommandOf;
    var values := [h.alias, "rust-ssh-proxy", h.device, h.user, "no", "no", "none", command];
    AllSettings(lines, values);
    assert KEYS[1] == "HostName" && KEYS[2] == "HostKeyAlias" && KEYS[3] == "User" && KEYS[4] == "ControlMaster";
    assert KEYS[5] == "ControlPersist" && KEYS[6] == "ControlPath" && KEYS[7] == "ProxyCommand";
  }

  lemma AllSettings(lines: Block, values: seq<string>)
    requires |lines| == |values| == 8 && lines[0] != "" && lines[0][0] != '\t'
    requires forall j :: 1 <= j < 8 ==> lines[j] == "\t" + (KEYS[j] + " " + values[j])
    ensures forall i :: 1 <= i < 8 ==> Setting(lines, KEYS[i]) == Some(values[i])
  {
    KeysAreKeywords();
    forall i | 1 <= i < 8
      ensures Setting(lines, KEYS[i]) == Some(values[i])
    {
      SettingIn(lines, KEYS, values, i);
    }
  }

  lemma Spelled(h: Host, command: string)
    ensures "HostName rust-ssh-proxy" == "HostName" + " " + "rust-ssh-proxy"
    ensures ALIAS_PREFIX + h.device == "HostKeyAlias" + " " + h.device && "User " + h.user == "User" + " " + h.user
    ensures "ControlMaster no" == "ControlMaster" + " " + "no" && "ControlPersist no" == "ControlPersist" + " " + "no"
    ensures "ControlPath none" == "ControlPath" + " " + "none" && KEYWORD + command == "ProxyCommand" + " " + command
  {
  }
}
