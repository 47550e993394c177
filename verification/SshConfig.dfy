/** `update_managed_ssh_config` of src/desktop.rs: replace a host or device in the managed part, keep the rest. */
module SshConfig {
  import opened Bytes
  import opened SshText
  import opened SshBlocks

  const BEGIN := "# >>> rust-ssh managed begin >>>"
  const END := "# <<< rust-ssh managed end <<<"

  // ---------------------------------------------------------------- the three parts of a file

  datatype Sections = Plain | Unfinished | Managed(before: string, body: string, after: string)

  function SectionsOf(text: string): Sections {
    match Find(text, BEGIN)
    case None => Plain
    case Some(begin) =>
      var rest := text[begin + |BEGIN|..];
      match Find(rest, END)
      case None => Unfinished
      case Some(end) => Managed(text[..begin], rest[..end], rest[end + |END|..])
  }

  /** The managed host blocks of a file, up to trailing blank lines. */
  function BlocksOf(text: string): seq<Block> {
    match SectionsOf(text)
    case Managed(_, body, _) => BlocksIn(body)
    case _ => []
  }

  /** What the code writes between, and with, the two markers. */
  function ManagedText(blocks: seq<string>): string {
    BEGIN + "\n" + JoinWith(blocks, "\n\n") + "\n" + END + "\n"
  }

  /** What precedes the markers once they are there. */
  function Lead(text: string): string {
    match SectionsOf(text)
    case Managed(before, _, _) => before
    case _ => if TrimEnd(text) == "" then "" else TrimEnd(text) + "\n\n"
  }

  /** What follows them; the code leaves one more line break behind the end marker each time. */
  function Tail(text: string): string {
    match SectionsOf(text)
    case Managed(_, _, after) => after
    case _ => ""
  }

  /** The blocks written for an edit. */
  function NewBlocks(text: string, block: string, device: string, host: string): seq<string> {
    match SectionsOf(text)
    case Managed(_, body, _) => Retained(SplitBlocks(body), host, device) + [block]
    case _ => [block]
  }

  /** The new text, unless a begin marker has no end marker. */
  function Updated(text: string, block: string, device: string, host: string): Option<string> {
    if SectionsOf(text).Unfinished? then None
    else Some(Lead(text) + ManagedText(NewBlocks(text, block, device, host)) + Tail(text))
  }

  // ---------------------------------------------------------------- the editor

  lemma RetainedHead(blocks: seq<string>, i: nat, host: string, device: string)
    requires i < |blocks|
    ensures Retained(blocks[i..], host, device) ==
      if Replaces(Lines(blocks[i]), host, device) then Retained(blocks[i + 1..], host, device)
      else [blocks[i]] + Retained(blocks[i + 1..], host, device)
  {
    hide Replaces;
    assert blocks[i..][0] == blocks[i] && blocks[i..][1..] == blocks[i + 1..];
  }

  /** `blocks.retain(..)`. */
  method Retain(blocks: seq<string>, host: string, device: string) returns (kept: seq<string>)
    ensures kept == Retained(blocks, host, device)
  {
    hide Lines;
    hide Replaces;
    hide Retained;
    kept := [];
    for i := 0 to |blocks|
      invariant kept + Retained(blocks[i..], host, device) == Retained(blocks, host, device)
    {
      RetainedHead(blocks, i, host, device);
      Grouped(kept, [blocks[i]], Retained(blocks[i + 1..], host, device));
      if !Replaces(Lines(blocks[i]), host, device) {
        kept := kept + [blocks[i]];
      }
    }
    assert kept + Retained([], host, device) == kept && blocks[|blocks|..] == [] by {
      NoneRetained(host, device);
    }
  }

  lemma NoneRetained(host: string, device: string)
    ensures Retained([], host, device) == []
  {
  }

  /** The user's SSH configuration file, absent or present. */
  class ConfigFile {
    const windows: bool
    var present: bool
    var content: string

    constructor (windows: bool, content: Option<string>)
      ensures this.windows == windows && present == content.Some?
      ensures content.Some? ==> this.content == content.value
    {
      this.windows := windows;
      this.present := content.Some?;
      this.content := match content case None => "" case Some(text) => text;
    }

    /** The text as the editor sees it. */
    function Text(): string
      reads this
    {
      if present then Normalize(content) else ""
    }

    /** The file is rewritten, or left alone when its managed part has no end. */
    method Update(hostBlock: string, device: string, host: string) returns (ok: bool)
      modifies this
      ensures var block := TrimEnd(Normalize(hostBlock));
              var updated := Updated(old(Text()), block, device, host);
              if updated.None? then !ok && present == old(present) && content == old(content)
              else ok && present && content == if windows then ToCrLf(updated.value) else updated.value
    {
      hide Normalize;
      hide ToCrLf;
      hide Updated;
      var existing := if present then Normalize(content) else "";
      var updated := Rewrite(existing, TrimEnd(Normalize(hostBlock)), device, host);
      if updated.None? {
        return false;
      }
      content := if windows then ToCrLf(updated.value) else updated.value;
      present := true;
      return true;
    }
  }

  /** The middle of `update_managed_ssh_config`: from the text read to the text written. */
  method Rewrite(existing: string, block: string, device: string, host: string) returns (updated: Option<string>)
    ensures updated == Updated(existing, block, device, host)
  {
    hide SplitBlocks;
    hide Retained;
    hide ManagedText;
    var found := Find(existing, BEGIN);
    if found.None? {
      var text := TrimEnd(existing);
      if text != "" {
        text := text + "\n\n";
      }
      text := text + ManagedText([block]);
      assert text + "" == text;
      return Some(text);
    }
    var begin := found.value;
    var afterBegin := existing[begin + |BEGIN|..];
    var endOffset := Find(afterBegin, END);
    if endOffset.None? {
      return None;
    }
    var blocks := SplitHostBlocks(afterBegin[..endOffset.value]);
    blocks := Retain(blocks, host, device);
    blocks := blocks + [block];
    var end := begin + |BEGIN| + endOffset.value + |END|;
    assert existing[end..] == afterBegin[endOffset.value + |END|..];
    return Some(existing[..begin] + ManagedText(blocks) + existing[end..]);
  }

  // ---------------------------------------------------------------- markers

  predicate IsMarker(m: string) {
    m == BEGIN || m == END
  }

  /** The texts, markers among them, that never straddle a line break. */
  predicate WithinLine(m: string) {
    m != "" && '\n' !in m
  }

  ghost predicate Free(lines: seq<string>, m: string) {
    forall i :: 0 <= i < |lines| ==> !Occurs(lines[i], m)
  }

  lemma {:induction false} JoinIsFree(lines: seq<string>, m: string)
    requires WithinLine(m) && Free(lines, m)
    ensures !Occurs(JoinWith(lines, "\n"), m)
  {
    if Occurs(JoinWith(lines, "\n"), m) {
      var k := JoinOccurs(lines, m);
      assert false;
    }
  }

  lemma {:induction false} GroupIsFree(current: Block, lines: seq<string>, m: string)
    requires WithinLine(m) && Free(current, m) && Free(lines, m)
    ensures forall i :: 0 <= i < |Group(current, lines)| ==> Free(Group(current, lines)[i], m)
    decreases |lines|
  {
    hide Occurs;
    hide Blank;
    hide StartsHost;
    if lines != [] {
      assert Free(lines[1..], m) && Free([lines[0]], m) && Free(current + [lines[0]], m);
      GroupIsFree([lines[0]], lines[1..], m);
      GroupIsFree([], lines[1..], m);
      GroupIsFree(current + [lines[0]], lines[1..], m);
    }
  }

  lemma {:induction false} JoinAllIsFree(blocks: seq<Block>, m: string)
    requires WithinLine(m) && forall i :: 0 <= i < |blocks| ==> Free(blocks[i], m)
    ensures Free(JoinAll(blocks), m)
  {
    hide Occurs;
    if blocks != [] {
      JoinIsFree(blocks[0], m);
      JoinAllIsFree(blocks[1..], m);
    }
  }

  /** No block cut out of a marker-free body holds a marker. */
  lemma BlocksAreFree(body: string, m: string)
    requires NoCr(body) && WithinLine(m) && !Occurs(body, m)
    ensures Free(SplitBlocks(body), m)
  {
    forall k | 0 <= k < |Lines(body)|
      ensures !Occurs(Lines(body)[k], m)
    {
      if Occurs(Lines(body)[k], m) {
        LineOccurs(body, k, m);
        assert false;
      }
    }
    hide Occurs;
    hide Lines;
    GroupIsFree([], Lines(body), m);
    JoinAllIsFree(Group([], Lines(body)), m);
  }

  lemma {:induction false} RetainedIsFree(blocks: seq<string>, host: string, device: string, m: string)
    requires Free(blocks, m)
    ensures Free(Retained(blocks, host, device), m)
  {
    hide Occurs;
    hide Replaces;
    if blocks != [] {
      assert Free(blocks[1..], m);
      RetainedIsFree(blocks[1..], host, device, m);
    }
  }

  lemma OccursInThree(a: string, b: string, m: string, i: nat)
    requires WithinLine(m)
    ensures OccursAt(a + "\n\n" + b, m, i) ==> OccursAt(a, m, i) || (i > |a| + 1 && OccursAt(b, m, i - |a| - 2))
  {
    assert a + "\n\n" + b == a + "\n" + ("" + "\n" + b);
    OccursAroundBreak(a, "" + "\n" + b, m, i);
    if i > |a| {
      OccursAroundBreak("", b, m, i - |a| - 1);
    }
  }

  /** Blocks printed one after the other hold no marker that none of them holds. */
  lemma {:induction false} PrintedIsFree(blocks: seq<string>, m: string)
    requires WithinLine(m) && Free(blocks, m)
    ensures !Occurs(JoinWith(blocks, "\n\n"), m)
  {
    if |blocks| > 1 {
      assert Free(blocks[1..], m);
      PrintedIsFree(blocks[1..], m);
      var rest := JoinWith(blocks[1..], "\n\n");
      forall i: nat
        ensures !OccursAt(blocks[0] + "\n\n" + rest, m, i)
      {
        OccursInThree(blocks[0], rest, m, i);
        assert !Occurs(blocks[0], m);
      }
    }
  }

  // ---------------------------------------------------------------- reading back what was written

  function Rebuilt(before: string, inner: string, after: string): string {
    before + (BEGIN + "\n" + inner + "\n" + END + "\n") + after
  }

  lemma RebuiltParts(before: string, inner: string, after: string)
    ensures Rebuilt(before, inner, after) == before + BEGIN + "\n" + (inner + "\n" + (END + "\n" + after))
  {
    Regrouped(before, BEGIN, inner, END, after);
  }

  lemma Regrouped(before: string, begin: string, inner: string, end: string, after: string)
    ensures before + (begin + "\n" + inner + "\n" + end + "\n") + after
            == before + begin + "\n" + (inner + "\n" + (end + "\n" + after))
  {
  }

  lemma AfterLead(lead: string, inner: string, rest: string)
    ensures (lead + "\n" + (inner + "\n" + rest))[|lead|..] == "\n" + inner + "\n" + rest
    ensures ("\n" + inner + "\n" + rest)[..|inner| + 2] == "\n" + inner + "\n"
  {
  }

  /** The begin marker is found where it was written, when none comes earlier. */
  lemma FindsBegin(before: string, rest: string)
    requires forall i: nat :: i < |before| ==> !OccursAt(before + BEGIN, BEGIN, i)
    ensures Find(before + BEGIN + "\n" + rest, BEGIN) == Some(|before|)
  {
    var text := before + BEGIN + "\n" + rest;
    forall i: nat | i < |before|
      ensures !OccursAt(text, BEGIN, i)
    {
      OccursAroundBreak(before + BEGIN, rest, BEGIN, i);
    }
    assert text[|before|..|before| + |BEGIN|] == BEGIN;
    FindIs(text, BEGIN, |before|);
  }

  lemma FindsEnd(inner: string, rest: string)
    requires !Occurs(inner, END)
    ensures Find("\n" + inner + "\n" + (END + rest), END) == Some(|inner| + 2)
  {
    var text := "\n" + inner + "\n" + (END + rest);
    forall i: nat | i < |inner| + 2
      ensures !OccursAt(text, END, i)
    {
      OccursAroundBreak("\n" + inner, END + rest, END, i);
      OccursAroundBreak("", inner, END, i);
      assert "" + "\n" + inner == "\n" + inner;
    }
    assert text[|inner| + 2..|inner| + 2 + |END|] == END;
    FindIs(text, END, |inner| + 2);
  }

  lemma RebuiltSections(before: string, inner: string, after: string)
    requires forall i: nat :: i < |before| ==> !OccursAt(before + BEGIN, BEGIN, i)
    requires !Occurs(inner, END)
    ensures SectionsOf(Rebuilt(before, inner, after)) == Managed(before, "\n" + inner + "\n", "\n" + after)
  {
    var text, tail := Rebuilt(before, inner, after), END + "\n" + after;
    RebuiltParts(before, inner, after);
    FindsBegin(before, inner + "\n" + tail);
    FindsEnd(inner, "\n" + after);
    assert tail == END + ("\n" + after);
    AfterLead(before + BEGIN, inner, tail);
    var rest := "\n" + inner + "\n" + tail;
    assert text[|before + BEGIN|..] == rest && |before + BEGIN| == |before| + |BEGIN|;
    assert text[..|before|] == before;
    assert rest[|inner| + 2 + |END|..] == tail[|END|..] == "\n" + after;
  }

  lemma ManagedLeadIsFree(text: string, i: nat)
    requires SectionsOf(text).Managed? && i < |SectionsOf(text).before|
    ensures !OccursAt(SectionsOf(text).before + BEGIN, BEGIN, i)
  {
    var begin := Find(text, BEGIN).value;
    assert text[..begin] + BEGIN == text[..begin + |BEGIN|];
    OccursInPrefix(text, begin + |BEGIN|, BEGIN, i);
  }

  lemma PlainLeadIsFree(text: string, m: string, i: nat)
    requires IsMarker(m) && !Occurs(text, m) && i < |TrimEnd(text)| + 2
    ensures !OccursAt(TrimEnd(text) + "\n\n" + BEGIN, m, i)
  {
    var kept := TrimEnd(text);
    OccursInThree(kept, BEGIN, m, i);
    OccursInPrefix(text, |kept|, m, i);
    assert kept == text[..|kept|];
  }

  /** Nothing before the place of the begin marker looks like one. */
  lemma LeadIsFree(text: string)
    requires !SectionsOf(text).Unfinished?
    ensures forall i: nat :: i < |Lead(text)| ==> !OccursAt(Lead(text) + BEGIN, BEGIN, i)
  {
    hide OccursAt;
    forall i: nat | i < |Lead(text)|
      ensures !OccursAt(Lead(text) + BEGIN, BEGIN, i)
    {
      if SectionsOf(text).Managed? {
        ManagedLeadIsFree(text, i);
      } else {
        PlainLeadIsFree(text, BEGIN, i);
      }
    }
  }

  lemma BodyIsFree(text: string)
    requires SectionsOf(text).Managed?
    ensures !Occurs(SectionsOf(text).body, END)
  {
    var rest := text[Find(text, BEGIN).value + |BEGIN|..];
    var end := Find(rest, END).value;
    forall i: nat
      ensures !OccursAt(rest[..end], END, i)
    {
      OccursInPrefix(rest, end, END, i);
    }
  }

  lemma NewBlocksAreFree(text: string, block: string, device: string, host: string, m: string)
    requires NoCr(text) && WithinLine(m) && !Occurs(block, m)
    requires SectionsOf(text).Managed? ==> NoCr(SectionsOf(text).body) && !Occurs(SectionsOf(text).body, m)
    ensures !Occurs(JoinWith(NewBlocks(text, block, device, host), "\n\n"), m)
  {
    if SectionsOf(text).Managed? {
      BlocksAreFree(SectionsOf(text).body, m);
      RetainedIsFree(SplitBlocks(SectionsOf(text).body), host, device, m);
    }
    var blocks := NewBlocks(text, block, device, host);
    hide Occurs;
    assert Free(blocks, m);
    PrintedIsFree(blocks, m);
  }

  lemma BodyNoCr(text: string)
    requires NoCr(text) && SectionsOf(text).Managed?
    ensures NoCr(SectionsOf(text).body) && NoCr(SectionsOf(text).before) && NoCr(SectionsOf(text).after)
  {
    var begin := Find(text, BEGIN).value;
    var rest := text[begin + |BEGIN|..];
    NoCrParts(text, begin);
    NoCrParts(text, begin + |BEGIN|);
    var end := Find(rest, END).value;
    NoCrParts(rest, end);
    NoCrParts(rest, end + |END|);
  }

  /** A block an edit may bring: it starts with a Host line and does not hold the end marker. */
  ghost predicate Acceptable(block: string) {
    Editable(block) && !Occurs(block, END)
  }

  /** The text is these parts, with the markers around the middle one. */
  ghost predicate MadeOf(text: string, before: string, body: string, after: string) {
    text == before + BEGIN + body + END + after
  }

  /** A finished managed part cuts the text into its parts at the first begin marker and the next end marker. */
  lemma SectionsAreParts(text: string)
    requires SectionsOf(text).Managed?
    ensures var parts := SectionsOf(text);
      && MadeOf(text, parts.before, parts.body, parts.after)
      && (forall i: nat :: i < |parts.before| ==> !OccursAt(text, BEGIN, i)) && !Occurs(parts.body, END)
  {
    BodyIsFree(text);
    var begin := Find(text, BEGIN).value;
    var rest := text[begin + |BEGIN|..];
    var end := Find(rest, END).value;
    CutAround(text, BEGIN, begin);
    CutAround(rest, END, end);
    Flattened(text[..begin], BEGIN, rest[..end], END, rest[end + |END|..]);
  }

  lemma CutAround(text: string, m: string, i: nat)
    requires OccursAt(text, m, i)
    ensures text == text[..i] + m + text[i + |m|..]
  {
  }

  lemma Flattened(a: string, b: string, c: string, d: string, e: string)
    ensures a + b + (c + d + e) == a + b + c + d + e
  {
  }

  lemma PartsAreFound(text: string, block: string, device: string, host: string)
    requires NoCr(text) && Acceptable(block) && !SectionsOf(text).Unfinished?
    ensures Updated(text, block, device, host).Some?
    ensures SectionsOf(Updated(text, block, device, host).value)
            == Managed(Lead(text), "\n" + JoinWith(NewBlocks(text, block, device, host), "\n\n") + "\n", "\n" + Tail(text))
  {
    if SectionsOf(text).Managed? {
      BodyNoCr(text);
      BodyIsFree(text);
    }
    NewBlocksAreFree(text, block, device, host, END);
    LeadIsFree(text);
    RebuiltSections(Lead(text), JoinWith(NewBlocks(text, block, device, host), "\n\n"), Tail(text));
  }

  lemma LeadAndTail(text: string)
    ensures match SectionsOf(text)
      case Managed(before, _, after) => Lead(text) == before && Tail(text) == after
      case _ => Lead(text) == (if TrimEnd(text) == "" then "" else TrimEnd(text) + "\n\n") && Tail(text) == ""
  {
  }

  /**
   What is before the markers stays, what is after them stays as a suffix, and the parts are found again; a
   text without markers stays in front of them, but for white space at its end.
   */
  lemma UpdateKeepsTheRest(text: string, block: string, device: string, host: string)
    requires NoCr(text) && Acceptable(block) && !SectionsOf(text).Unfinished?
    ensures Updated(text, block, device, host).Some?
    ensures var parts := SectionsOf(Updated(text, block, device, host).value);
      && parts == Managed(Lead(text), "\n" + JoinWith(NewBlocks(text, block, device, host), "\n\n") + "\n", "\n" + Tail(text))
      && match SectionsOf(text)
         case Managed(before, _, after) => parts.before == before && parts.after == "\n" + after
         case _ => parts.before == (if TrimEnd(text) == "" then "" else TrimEnd(text) + "\n\n") && parts.after == "\n"
  {
    PartsAreFound(text, block, device, host);
    LeadAndTail(text);
    hide *;
    assert "\n" + "" == "\n";
  }

  /** The blocks of the new file are those of the old one without the same host or device, and the new ones after them. */
  lemma UpdateEdits(text: string, block: string, device: string, host: string)
    requires NoCr(text) && Acceptable(block) && !SectionsOf(text).Unfinished?
    ensures Updated(text, block, device, host).Some?
    ensures BlocksOf(Updated(text, block, device, host).value) == Keep(BlocksOf(text), host, device) + BlocksIn(block)
  {
    UpdateKeepsTheRest(text, block, device, host);
    if SectionsOf(text).Managed? {
      BodyNoCr(text);
      EditedBody(SectionsOf(text).body, block, host, device);
    } else {
      EditedBody("", block, host, device);
      assert Retained(SplitBlocks(""), host, device) + [block] == [block];
      assert Keep(BlocksIn(""), host, device) == [];
    }
  }

  // ---------------------------------------------------------------- one pair of markers

  /** The begin marker occurs at `b` and nowhere else, the end marker at `e` and nowhere else. */
  ghost predicate PairAt(text: string, b: nat, e: nat) {
    && b + |BEGIN| <= e && e + |END| <= |text|
    && (forall i: nat :: OccursAt(text, BEGIN, i) <==> i == b)
    && (forall i: nat :: OccursAt(text, END, i) <==> i == e)
  }

  ghost predicate MarkerFree(text: string) {
    !Occurs(text, BEGIN) && !Occurs(text, END)
  }

  /** No marker anywhere, or exactly one pair. */
  ghost predicate WellMarked(text: string) {
    MarkerFree(text) || exists b, e :: PairAt(text, b, e)
  }

  lemma OccursInFour(a: string, b: string, c: string, d: string, m: string, i: nat)
    requires WithinLine(m)
    ensures OccursAt(a + "\n" + (b + "\n" + (c + "\n" + d)), m, i) <==>
      || OccursAt(a, m, i)
      || (i >= |a| + 1 && OccursAt(b, m, i - |a| - 1))
      || (i >= |a| + |b| + 2 && OccursAt(c, m, i - |a| - |b| - 2))
      || (i >= |a| + |b| + |c| + 3 && OccursAt(d, m, i - |a| - |b| - |c| - 3))
  {
    hide OccursAt;
    OccursAroundBreak(a, b + "\n" + (c + "\n" + d), m, i);
    if i > |a| {
      var j := i - |a| - 1;
      OccursAroundBreak(b, c + "\n" + d, m, j);
      if j > |b| {
        OccursAroundBreak(c, d, m, j - |b| - 1);
      }
    }
  }

  lemma OccursInRebuilt(before: string, inner: string, after: string, m: string, i: nat)
    requires IsMarker(m)
    ensures var first := |before| + |BEGIN| + 1; var second := first + |inner| + 1; var third := second + |END| + 1;
      OccursAt(Rebuilt(before, inner, after), m, i) <==>
        || OccursAt(before + BEGIN, m, i)
        || (i >= first && OccursAt(inner, m, i - first))
        || (i == second && m == END)
        || (i >= third && OccursAt(after, m, i - third))
  {
    RebuiltParts(before, inner, after);
    assert WithinLine(m);
    hide OccursAt;
    hide Rebuilt;
    OccursInFour(before + BEGIN, inner, END, after, m, i);
    var second := |before + BEGIN| + |inner| + 2;
    if i >= second {
      OnlyEndInEnd(m, i - second);
    }
  }

  lemma OnlyEndInEnd(m: string, i: nat)
    requires IsMarker(m)
    ensures OccursAt(END, m, i) <==> i == 0 && m == END
  {
    assert |BEGIN| > |END|;
  }

  lemma RebuiltPair(before: string, inner: string, after: string)
    requires forall i: nat :: OccursAt(before + BEGIN, BEGIN, i) <==> i == |before|
    requires !Occurs(before + BEGIN, END) && MarkerFree(inner) && MarkerFree(after)
    ensures PairAt(Rebuilt(before, inner, after), |before|, |before| + |BEGIN| + 1 + |inner| + 1)
  {
    hide OccursAt;
    forall i: nat, m | IsMarker(m)
      ensures OccursAt(Rebuilt(before, inner, after), m, i) <==>
        OccursAt(before + BEGIN, m, i) || (i == |before| + |BEGIN| + 1 + |inner| + 1 && m == END)
    {
      OccursInRebuilt(before, inner, after, m, i);
    }
  }

  lemma OccursInPart(text: string, from: nat, to: nat, m: string, i: nat)
    requires from <= to <= |text|
    ensures OccursAt(text[from..to], m, i) <==> OccursAt(text, m, from + i) && from + i + |m| <= to
  {
    assert text[from..to] == text[from..][..to - from];
    OccursInPrefix(text[from..], to - from, m, i);
    OccursInSuffix(text, from, m, i);
  }

  /** Where the pair is, the three parts are found. */
  lemma PairSections(text: string, b: nat, e: nat)
    requires PairAt(text, b, e)
    ensures SectionsOf(text) == Managed(text[..b], text[b + |BEGIN|..e], text[e + |END|..])
  {
    assert OccursAt(text, BEGIN, b) && OccursAt(text, END, e);
    var start := b + |BEGIN|;
    var rest := text[start..];
    FindIs(text, BEGIN, b);
    forall i: nat
      ensures OccursAt(rest, END, i) <==> i == e - start
    {
      OccursInSuffix(text, start, END, i);
    }
    FindIs(rest, END, e - start);
    assert rest[..e - start] == text[start..e] && rest[e - start + |END|..] == text[e + |END|..];
  }

  /** The parts of a text with one pair hold no marker but that pair. */
  lemma PairParts(text: string, b: nat, e: nat)
    requires PairAt(text, b, e)
    ensures forall i: nat :: OccursAt(text[..b] + BEGIN, BEGIN, i) <==> i == b
    ensures !Occurs(text[..b] + BEGIN, END)
    ensures MarkerFree(text[b + |BEGIN|..e]) && MarkerFree(text[e + |END|..])
  {
    assert OccursAt(text, BEGIN, b) && OccursAt(text, END, e);
    var start, end := b + |BEGIN|, e + |END|;
    assert text[..b] + BEGIN == text[0..start] && text[end..] == text[end..|text|];
    forall i: nat, m | m in {BEGIN, END}
      ensures OccursAt(text[0..start], m, i) <==> m == BEGIN && i == b
      ensures !OccursAt(text[start..e], m, i) && !OccursAt(text[end..|text|], m, i)
    {
      OccursInPart(text, 0, start, m, i);
      OccursInPart(text, start, e, m, i);
      OccursInPart(text, end, |text|, m, i);
    }
    assert BEGIN in {BEGIN, END} && END in {BEGIN, END};
  }

  lemma OnlyBeginInBegin(m: string, i: nat)
    requires IsMarker(m)
    ensures OccursAt(BEGIN, m, i) <==> i == 0 && m == BEGIN
  {
    assert END[2] == '<' && BEGIN[2] == '>' && BEGIN[3] == '>' && BEGIN[4] == '>';
    if i <= |BEGIN| - |END| {
      assert BEGIN[i..i + |END|][2] == BEGIN[i + 2];
    }
    assert BEGIN[0..|BEGIN|] == BEGIN;
  }

  lemma FreeLead(text: string)
    requires MarkerFree(text)
    ensures SectionsOf(text) == Plain
    ensures forall i: nat :: OccursAt(Lead(text) + BEGIN, BEGIN, i) <==> i == |Lead(text)|
    ensures !Occurs(Lead(text) + BEGIN, END)
  {
    assert SectionsOf(text) == Plain;
    var kept, lead := TrimEnd(text), Lead(text);
    forall i: nat, m | m in {BEGIN, END}
      ensures OccursAt(lead + BEGIN, m, i) <==> m == BEGIN && i == |lead|
    {
      OccursInPrefix(text, |kept|, m, i);
      assert kept == text[..|kept|] && !OccursAt(kept, m, i);
      if kept == "" {
        assert lead + BEGIN == BEGIN;
        OnlyBeginInBegin(m, i);
      } else {
        OccursInThree(kept, BEGIN, m, i);
        assert (lead + BEGIN)[|lead|..|lead| + |BEGIN|] == BEGIN;
        if i >= |lead| {
          OnlyBeginInBegin(m, i - |lead|);
        }
      }
    }
    assert BEGIN in {BEGIN, END} && END in {BEGIN, END};
  }

  /** The text before the markers and the text after them hold no marker of their own. */
  ghost predicate CleanParts(text: string) {
    && !SectionsOf(text).Unfinished?
    && (forall i: nat :: OccursAt(Lead(text) + BEGIN, BEGIN, i) <==> i == |Lead(text)|)
    && !Occurs(Lead(text) + BEGIN, END) && MarkerFree(Tail(text))
    && (SectionsOf(text).Managed? ==> NoCr(SectionsOf(text).body) && MarkerFree(SectionsOf(text).body))
  }

  lemma FreeIsClean(text: string)
    requires MarkerFree(text)
    ensures CleanParts(text)
  {
    FreeLead(text);
    assert Tail(text) == "";
  }

  lemma PairIsClean(text: string, b: nat, e: nat)
    requires NoCr(text) && PairAt(text, b, e)
    ensures CleanParts(text)
  {
    PairSections(text, b, e);
    PairParts(text, b, e);
    hide PairAt;
    hide OccursAt;
    BodyNoCr(text);
  }

  /** No edit ever doubles, loses or splits the markers. */
  lemma OnePairStaysOnePair(text: string, block: string, device: string, host: string)
    requires NoCr(text) && Acceptable(block) && !Occurs(block, BEGIN) && WellMarked(text)
    ensures Updated(text, block, device, host).Some?
    ensures exists b, e :: PairAt(Updated(text, block, device, host).value, b, e)
  {
    if MarkerFree(text) {
      FreeIsClean(text);
    } else {
      var b, e :| PairAt(text, b, e);
      PairIsClean(text, b, e);
    }
    hide PairAt;
    hide WellMarked;
    NewBlocksAreFree(text, block, device, host, BEGIN);
    NewBlocksAreFree(text, block, device, host, END);
    RebuiltPair(Lead(text), JoinWith(NewBlocks(text, block, device, host), "\n\n"), Tail(text));
  }

  // ---------------------------------------------------------------- sequences of edits

  lemma CrOccurs(t: string)
    ensures NoCr(t) <==> !Occurs(t, "\r")
  {
    if i: nat :| i < |t| && t[i] == '\r' {
      assert OccursAt(t, "\r", i);
    }
    if i: nat :| OccursAt(t, "\r", i) {
      assert t[i..i + 1][0] == t[i];
    }
  }

  lemma UpdateHasNoCr(text: string, block: string, device: string, host: string)
    requires NoCr(text) && Editable(block) && !SectionsOf(text).Unfinished?
    ensures Updated(text, block, device, host).Some? && NoCr(Updated(text, block, device, host).value)
  {
    var inner := JoinWith(NewBlocks(text, block, device, host), "\n\n");
    CrOccurs(block);
    if SectionsOf(text).Managed? {
      BodyNoCr(text);
      CrOccurs(SectionsOf(text).body);
    }
    NewBlocksAreFree(text, block, device, host, "\r");
    CrOccurs(inner);
    assert NoCr(Lead(text)) && NoCr(Tail(text));
    hide Lead;
    hide Tail;
    hide NewBlocks;
    assert NoCr(BEGIN) && NoCr(END);
  }

  datatype Edit = Edit(block: string, device: string, host: string)

  /** The text after an edit; a refused edit leaves it alone. */
  function ApplyOne(text: string, edit: Edit): string {
    match Updated(text, edit.block, edit.device, edit.host)
    case Some(updated) => updated
    case None => text
  }

  function ApplyAll(text: string, edits: seq<Edit>): string {
    if edits == [] then text else ApplyOne(ApplyAll(text, edits[..|edits| - 1]), edits[|edits| - 1])
  }

  /** What the edits mean for the list of blocks: drop those of the same host or device, append the new ones. */
  function EditAll(blocks: seq<Block>, edits: seq<Edit>): seq<Block> {
    if edits == [] then blocks
    else
      var edit := edits[|edits| - 1];
      Keep(EditAll(blocks, edits[..|edits| - 1]), edit.host, edit.device) + BlocksIn(edit.block)
  }

  function LineBreaks(n: nat): string {
    if n == 0 then "" else "\n" + LineBreaks(n - 1)
  }

  ghost predicate AllAcceptable(edits: seq<Edit>) {
    forall i :: 0 <= i < |edits| ==> Acceptable(edits[i].block)
  }

  lemma EditStep(text: string, edit: Edit)
    requires NoCr(text) && !SectionsOf(text).Unfinished? && Acceptable(edit.block)
    ensures NoCr(ApplyOne(text, edit)) && SectionsOf(ApplyOne(text, edit)).Managed?
    ensures BlocksOf(ApplyOne(text, edit)) == Keep(BlocksOf(text), edit.host, edit.device) + BlocksIn(edit.block)
    ensures Lead(ApplyOne(text, edit)) == Lead(text) && Tail(ApplyOne(text, edit)) == "\n" + Tail(text)
  {
    UpdateKeepsTheRest(text, edit.block, edit.device, edit.host);
    UpdateEdits(text, edit.block, edit.device, edit.host);
    UpdateHasNoCr(text, edit.block, edit.device, edit.host);
    hide SectionsOf;
    hide Updated;
    hide BlocksOf;
  }

  lemma OneBreakMoreBehind(n: nat, tail: string)
    ensures "\n" + (LineBreaks(n) + tail) == LineBreaks(n + 1) + tail
  {
  }

  lemma EarlierEdits(edits: seq<Edit>)
    requires AllAcceptable(edits) && edits != []
    ensures AllAcceptable(edits[..|edits| - 1]) && Acceptable(edits[|edits| - 1].block)
  {
    hide Acceptable;
  }

  /** The file starts with `before`, up to `begin`, and its last lines are those of `after`. */
  predicate StandsAround(before: string, begin: string, after: string, file: string) {
    before + begin <= file && |Lines(after)| <= |Lines(file)| && Lines(file)[|Lines(file)| - |Lines(after)|..] == Lines(after)
  }

  /** The file starts with this text, and its first lines are the text's. */
  predicate StandsFirst(text: string, file: string) {
    text <= file && Lines(text) <= Lines(file)
  }

  /**
   What a number of edits leave of the user's own text, that is, of all of it when there were no markers, and of
   the text before and after them otherwise: it stands where it stood, with every one of its lines.
   */
  ghost predicate UserTextKept(text: string, result: string, edits: nat) {
    && SectionsOf(result).Managed?
    && match SectionsOf(text)
       case Managed(before, _, after) =>
         && SectionsOf(result).before == before && SectionsOf(result).after == LineBreaks(edits) + after
         && StandsAround(before, BEGIN, after, result)
       case _ =>
         && SectionsOf(result).before == (if TrimEnd(text) == "" then "" else TrimEnd(text) + "\n\n")
         && SectionsOf(result).after == LineBreaks(edits)
         && StandsFirst(TrimEnd(text), result)
  }

  lemma {:induction false} LineBreaksEnd(n: nat)
    requires n > 0
    ensures LineBreaks(n) != "" && LineBreaks(n)[|LineBreaks(n)| - 1] == '\n'
  {
    if n > 1 {
      LineBreaksEnd(n - 1);
    }
  }

  /** The managed part stands where the user's text ends, and what was behind it follows the line breaks of the edits. */
  ghost predicate Placed(text: string, result: string, edits: nat) {
    && SectionsOf(result).Managed? && SectionsOf(result).before == Lead(text)
    && SectionsOf(result).after == LineBreaks(edits) + Tail(text)
  }

  lemma UserLinesKept(text: string, result: string, edits: nat)
    requires NoCr(result) && edits > 0
    ensures Placed(text, result, edits) ==> UserTextKept(text, result, edits)
  {
    UserLinesAround(text, result, edits);
    UserLinesBefore(text, result, edits);
    hide *;
  }

  lemma PartsOf(text: string)
    ensures var parts := SectionsOf(text); parts.Managed? ==> MadeOf(text, parts.before, parts.body, parts.after)
  {
    if SectionsOf(text).Managed? {
      SectionsAreParts(text);
    }
    hide *;
  }

  lemma UserLinesAround(text: string, result: string, edits: nat)
    requires NoCr(result) && edits > 0
    ensures SectionsOf(text).Managed? && Placed(text, result, edits) ==> UserTextKept(text, result, edits)
  {
    PartsOf(result);
    LeadAndTail(text);
    LineBreaksEnd(edits);
    hide SectionsOf;
    hide Lead;
    hide Tail;
    hide LineBreaks;
    hide Lines;
    hide NoCr;
    hide StandsAround;
    hide MadeOf;
    hide TrimEnd;
    if SectionsOf(text).Managed? && Placed(text, result, edits) {
      var parts := SectionsOf(result);
      TextStaysAround(parts.before, parts.body, parts.after, LineBreaks(edits), Tail(text), result);
    }
  }

  lemma UserLinesBefore(text: string, result: string, edits: nat)
    requires NoCr(result)
    ensures !SectionsOf(text).Managed? && Placed(text, result, edits) ==> UserTextKept(text, result, edits)
  {
    PartsOf(result);
    LeadAndTail(text);
    EndsOnText(text);
    NothingBehind(LineBreaks(edits));
    hide SectionsOf;
    hide Lead;
    hide Tail;
    hide LineBreaks;
    hide Lines;
    hide NoCr;
    hide TrimEnd;
    hide StandsFirst;
    hide MadeOf;
    if !SectionsOf(text).Managed? && Placed(text, result, edits) {
      var parts := SectionsOf(result);
      TextStaysFirst(TrimEnd(text), parts.before, parts.body, parts.after, result);
    }
  }

  lemma TextStaysAround(before: string, body: string, rest: string, breaks: string, after: string, result: string)
    requires NoCr(result) && MadeOf(result, before, body, rest)
    requires breaks != "" && breaks[|breaks| - 1] == '\n' && rest == breaks + after
    ensures StandsAround(before, BEGIN, after, result)
  {
    hide StandsAround;
    hide NoCr;
    LastBreak(breaks);
    ManagedStays(before, BEGIN, body, END, rest, breaks[..|breaks| - 1], after, result);
  }

  lemma LastBreak(t: string)
    requires t != "" && t[|t| - 1] == '\n'
    ensures t == t[..|t| - 1] + "\n"
  {
  }

  lemma NothingBehind(t: string)
    ensures t + "" == t
  {
  }

  lemma EndsOnText(text: string)
    ensures TrimEnd(text) != "" ==> TrimEnd(text)[|TrimEnd(text)| - 1] != '\n'
  {
  }

  lemma TextStaysFirst(kept: string, before: string, body: string, after: string, result: string)
    requires NoCr(result) && (kept != "" ==> kept[|kept| - 1] != '\n')
    requires MadeOf(result, before, body, after) && before == if kept == "" then "" else kept + "\n\n"
    ensures StandsFirst(kept, result)
  {
    hide StandsFirst;
    hide NoCr;
    PlainStays(kept, before, BEGIN, body, END, after, result);
  }

  lemma ManagedStays(before: string, begin: string, body: string, end: string, rest: string, breaks: string,
                     after: string, result: string)
    requires NoCr(result) && result == before + begin + body + end + rest && rest == breaks + "\n" + after
    ensures StandsAround(before, begin, after, result)
  {
    var head := before + begin + body + end + breaks;
    assert result == head + "\n" + after;
    TailLines(result, head, after);
  }

  lemma TailLines(result: string, head: string, after: string)
    requires NoCr(result) && result == head + "\n" + after
    ensures |Lines(after)| <= |Lines(result)| && Lines(result)[|Lines(result)| - |Lines(after)|..] == Lines(after)
  {
    assert NoCr(head);
    LinesCut(head, after);
  }

  lemma PlainStays(kept: string, before: string, begin: string, body: string, end: string, after: string, result: string)
    requires NoCr(result) && (kept != "" ==> kept[|kept| - 1] != '\n')
    requires result == before + begin + body + end + after && before == if kept == "" then "" else kept + "\n\n"
    ensures StandsFirst(kept, result)
  {
    Regathered(before, begin, body, end, after);
    HeadLines(kept, begin + body + end + after, result);
  }

  lemma Regathered(a: string, b: string, c: string, d: string, e: string)
    ensures a + b + c + d + e == a + (b + c + d + e)
  {
  }

  lemma HeadLines(kept: string, rest: string, result: string)
    requires NoCr(result) && (kept != "" ==> kept[|kept| - 1] != '\n')
    requires result == (if kept == "" then "" else kept + "\n\n") + rest
    ensures StandsFirst(kept, result)
  {
    if kept != "" {
      assert result == kept + "\n" + ("\n" + rest);
      assert NoCr(kept);
      hide Lines;
      LinesStayFirst(kept, "\n" + rest);
    }
  }

  /**
   After any sequence of edits the managed blocks are those of the list model, the text before the markers
   has not changed since they are there, and the text after them follows one line break for each edit; no
   line of the user's is lost.
   */
  lemma {:induction false} EditsFollowTheModel(text: string, edits: seq<Edit>)
    requires NoCr(text) && !SectionsOf(text).Unfinished? && AllAcceptable(edits)
    ensures NoCr(ApplyAll(text, edits)) && !SectionsOf(ApplyAll(text, edits)).Unfinished?
    ensures BlocksOf(ApplyAll(text, edits)) == EditAll(BlocksOf(text), edits)
    ensures edits != [] ==> SectionsOf(ApplyAll(text, edits)).Managed?
    ensures Lead(ApplyAll(text, edits)) == Lead(text)
    ensures Tail(ApplyAll(text, edits)) == LineBreaks(|edits|) + Tail(text)
    ensures edits != [] ==> UserTextKept(text, ApplyAll(text, edits), |edits|)
  {
    LeadAndTail(ApplyAll(text, edits));
    hide UserTextKept;
    hide NoCr;
    hide SectionsOf;
    hide BlocksOf;
    hide AllAcceptable;
    hide Lead;
    hide Tail;
    hide ApplyOne;
    hide Keep;
    hide BlocksIn;
    if edits == [] {
      assert "" + Tail(text) == Tail(text);
    } else {
      var init := edits[..|edits| - 1];
      EarlierEdits(edits);
      OneBreakMoreBehind(|init|, Tail(text));
      EditsFollowTheModel(text, init);
      EditStep(ApplyAll(text, init), edits[|edits| - 1]);
      assert Placed(text, ApplyAll(text, edits), |edits|);
      UserLinesKept(text, ApplyAll(text, edits), |edits|);
    }
  }

  /** A managed part without an end is left alone, whatever the edits. */
  lemma {:induction false} UnfinishedStays(text: string, edits: seq<Edit>)
    requires SectionsOf(text).Unfinished?
    ensures ApplyAll(text, edits) == text
  {
    if edits != [] {
      UnfinishedStays(text, edits[..|edits| - 1]);
    }
  }

  /** One pair of markers survives every sequence of edits. */
  lemma {:induction false} EditsKeepOnePair(text: string, edits: seq<Edit>)
    requires NoCr(text) && WellMarked(text) && AllAcceptable(edits)
    requires forall i :: 0 <= i < |edits| ==> !Occurs(edits[i].block, BEGIN)
    ensures WellMarked(ApplyAll(text, edits)) && NoCr(ApplyAll(text, edits))
    ensures edits != [] ==> exists b, e :: PairAt(ApplyAll(text, edits), b, e)
  {
    hide NoCr;
    hide PairAt;
    hide MarkerFree;
    hide Occurs;
    hide Acceptable;
    if edits != [] {
      var init, edit := edits[..|edits| - 1], edits[|edits| - 1];
      assert AllAcceptable(init) && Acceptable(edit.block) && !Occurs(edit.block, BEGIN);
      EditsKeepOnePair(text, init);
      PairStep(ApplyAll(text, init), edit);
    }
  }

  lemma PairStep(text: string, edit: Edit)
    requires NoCr(text) && WellMarked(text) && Acceptable(edit.block) && !Occurs(edit.block, BEGIN)
    ensures NoCr(ApplyOne(text, edit)) && exists b, e :: PairAt(ApplyOne(text, edit), b, e)
  {
    OnePairStaysOnePair(text, edit.block, edit.device, edit.host);
    UpdateHasNoCr(text, edit.block, edit.device, edit.host);
  }

  /** The edit as the code makes it out of the block it is given. */
  function Trimmed(edit: Edit): Edit {
    edit.(block := TrimEnd(Normalize(edit.block)))
  }

  lemma RereadsAsWritten(text: string, edit: Edit, windows: bool)
    requires NoCr(text) && Editable(edit.block) && !SectionsOf(text).Unfinished?
    ensures var u := ApplyOne(text, edit); NoCr(u) && Normalize(if windows then ToCrLf(u) else u) == u
  {
    UpdateHasNoCr(text, edit.block, edit.device, edit.host);
    var u := ApplyOne(text, edit);
    WindowsRoundTrip(u);
    NormalizeKeeps(u);
  }

  /** One edit of the file, seen through its normalised text: what is written is what is read the next time. */
  method EditOnce(file: ConfigFile, edit: Edit)
    requires Editable(Trimmed(edit).block)
    modifies file
    ensures file.Text() == ApplyOne(old(file.Text()), Trimmed(edit))
  {
    ghost var before := file.Text();
    NormalizeIsOnePass(file.content);
    var ok := file.Update(edit.block, edit.device, edit.host);
    if ok {
      RereadsAsWritten(before, Trimmed(edit), file.windows);
    }
  }

  lemma OneEditMore(text: string, edits: seq<Edit>, i: nat)
    requires i < |edits|
    ensures ApplyAll(text, edits[..i + 1]) == ApplyOne(ApplyAll(text, edits[..i]), edits[i])
  {
    assert edits[..i + 1][..i] == edits[..i] && edits[..i + 1][i] == edits[i];
  }

  lemma TextHasNoCr(file: ConfigFile)
    ensures NoCr(file.Text())
  {
    NormalizeIsOnePass(file.content);
  }

  function TrimmedAll(edits: seq<Edit>): (trimmed: seq<Edit>)
    ensures |trimmed| == |edits| && forall i :: 0 <= i < |edits| ==> trimmed[i] == Trimmed(edits[i])
  {
    seq(|edits|, i requires 0 <= i < |edits| => Trimmed(edits[i]))
  }

  /** A sequence of edits on the file itself, whatever its line endings. */
  method EditFile(file: ConfigFile, edits: seq<Edit>)
    requires forall i :: 0 <= i < |edits| ==> Editable(Trimmed(edits[i]).block)
    modifies file
    ensures file.Text() == ApplyAll(old(file.Text()), TrimmedAll(edits))
    ensures SectionsOf(old(file.Text())).Unfinished? ==> file.Text() == old(file.Text())
    ensures !SectionsOf(old(file.Text())).Unfinished? && edits != []
            && (forall i :: 0 <= i < |edits| ==> Acceptable(Trimmed(edits[i]).block)) ==>
              UserTextKept(old(file.Text()), file.Text(), |edits|)
  {
    ghost var trimmed := TrimmedAll(edits);
    ghost var start := file.Text();
    TextHasNoCr(file);
    hide TrimmedAll;
    hide UserTextKept;
    hide SectionsOf;
    hide Acceptable;
    hide NoCr;
    hide ApplyOne;
    hide Editable;
    hide Trimmed;
    for i := 0 to |edits|
      invariant file.Text() == ApplyAll(start, trimmed[..i])
    {
      OneEditMore(start, trimmed, i);
      EditOnce(file, edits[i]);
    }
    assert trimmed[..|edits|] == trimmed;
    hide ApplyAll;
    FileKeepsTheUserText(start, edits, trimmed);
  }

  lemma FileKeepsTheUserText(start: string, edits: seq<Edit>, trimmed: seq<Edit>)
    requires NoCr(start) && |trimmed| == |edits| && forall i :: 0 <= i < |edits| ==> trimmed[i] == Trimmed(edits[i])
    ensures SectionsOf(start).Unfinished? ==> ApplyAll(start, trimmed) == start
    ensures !SectionsOf(start).Unfinished? && edits != []
            && (forall i :: 0 <= i < |edits| ==> Acceptable(Trimmed(edits[i]).block)) ==>
              UserTextKept(start, ApplyAll(start, trimmed), |edits|)
  {
    hide Trimmed;
    hide UserTextKept;
    hide ApplyAll;
    if SectionsOf(start).Unfinished? {
      UnfinishedStays(start, trimmed);
    } else if forall i :: 0 <= i < |edits| ==> Acceptable(Trimmed(edits[i]).block) {
      EditsFollowTheModel(start, trimmed);
    }
  }
}
