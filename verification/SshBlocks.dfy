/** Host blocks of a managed SSH configuration: splitting a body into them, dropping some, printing them back. */
module SshBlocks {
  import opened SshText

  type Block = seq<string>

  const HOST_PREFIX := "Host "
  const ALIAS_PREFIX := "HostKeyAlias "

  predicate StartsHost(line: string) {
    HOST_PREFIX <= line
  }

  lemma HostIsNotBlank(line: string)
    requires StartsHost(line) || ALIAS_PREFIX <= line
    ensures !Blank(line)
  {
    assert line[0] == 'H' && TrimStart(line) == line;
    assert !IsSpace(line[0]);
  }

  // ---------------------------------------------------------------- splitting

  /** The blocks of `lines`, the first of which has already begun with `current`. */
  function Group(current: Block, lines: seq<string>): seq<Block>
    decreases |lines|
  {
    if lines == [] then if current == [] then [] else [current]
    else if StartsHost(lines[0]) && current != [] then [current] + Group([lines[0]], lines[1..])
    else if Blank(lines[0]) && current == [] then Group([], lines[1..])
    else Group(current + [lines[0]], lines[1..])
  }

  function JoinAll(blocks: seq<Block>): seq<string> {
    if blocks == [] then [] else [JoinWith(blocks[0], "\n")] + JoinAll(blocks[1..])
  }

  function SplitBlocks(text: string): seq<string> {
    JoinAll(Group([], Lines(text)))
  }

  /** `split_host_blocks`. */
  method SplitHostBlocks(text: string) returns (blocks: seq<string>)
    ensures blocks == SplitBlocks(text)
  {
    var lines := Lines(text);
    var current: Block := [];
    blocks := [];
    for i := 0 to |lines|
      invariant blocks + JoinAll(Group(current, lines[i..])) == SplitBlocks(text)
    {
      var line := lines[i];
      ghost var before, soFar := current, blocks;
      if StartsHost(line) && current != [] {
        blocks := blocks + [JoinWith(current, "\n")];
        current := [];
      }
      if StartsHost(line) {
        HostIsNotBlank(line);
      }
      if !(Blank(line) && current == []) {
        current := current + [line];
      }
      assert lines[i..][0] == line && lines[i..][1..] == lines[i + 1..];
      if StartsHost(line) && before != [] {
        assert current == [line];
        JoinAllAppend([before], Group([line], lines[i + 1..]));
        assert soFar + ([JoinWith(before, "\n")] + JoinAll(Group(current, lines[i + 1..])))
            == blocks + JoinAll(Group(current, lines[i + 1..]));
      }
    }
    if current != [] {
      blocks := blocks + [JoinWith(current, "\n")];
    }
  }

  lemma {:induction false} JoinAllAppend(a: seq<Block>, b: seq<Block>)
    ensures JoinAll(a + b) == JoinAll(a) + JoinAll(b)
  {
    if a == [] {
      assert a + b == b;
    } else {
      JoinAllAppend(a[1..], b);
      assert (a + b)[1..] == a[1..] + b;
    }
  }

  // ---------------------------------------------------------------- what splitting means

  /** A block has a first line that is not blank, and no later line starts another one. */
  ghost predicate IsBlock(block: Block) {
    block != [] && !Blank(block[0]) && forall j :: 1 <= j < |block| ==> !StartsHost(block[j])
  }

  ghost predicate IsBlockList(blocks: seq<Block>) {
    && (forall i :: 0 <= i < |blocks| ==> IsBlock(blocks[i]))
    && (forall i :: 1 <= i < |blocks| ==> StartsHost(blocks[i][0]))
  }

  function Flatten(blocks: seq<Block>): seq<string> {
    if blocks == [] then [] else blocks[0] + Flatten(blocks[1..])
  }

  function DropBlanks(lines: seq<string>): seq<string> {
    if lines != [] && Blank(lines[0]) then DropBlanks(lines[1..]) else lines
  }

  lemma {:induction false} FlattenOne(block: Block, rest: seq<Block>)
    ensures Flatten([block] + rest) == block + Flatten(rest)
  {
    assert ([block] + rest)[1..] == rest;
  }

  lemma ConsBlocks(block: Block, rest: seq<Block>)
    requires IsBlock(block) && IsBlockList(rest) && (rest == [] || StartsHost(rest[0][0]))
    ensures IsBlockList([block] + rest)
  {
    hide IsBlock;
    hide StartsHost;
    assert forall i :: 1 <= i < |[block] + rest| ==> ([block] + rest)[i] == rest[i - 1];
  }

  lemma LongerBlock(block: Block, line: string)
    requires if block == [] then !Blank(line) else IsBlock(block) && !StartsHost(line)
    ensures IsBlock(block + [line])
  {
    hide Blank;
    hide StartsHost;
  }

  /** Splitting loses only blank lines at the very start, and yields blocks. */
  lemma {:induction false} GroupPartitions(current: Block, lines: seq<string>)
    requires current == [] || IsBlock(current)
    ensures Flatten(Group(current, lines)) == if current == [] then DropBlanks(lines) else current + lines
    ensures IsBlockList(Group(current, lines))
    ensures current != [] ==> Group(current, lines) != [] && Group(current, lines)[0][0] == current[0]
    decreases |lines|
  {
    hide Blank;
    hide StartsHost;
    hide IsBlock;
    if lines == [] {
      if current != [] {
        FlattenOne(current, []);
        assert [current] + [] == [current];
      }
    } else {
      assert [lines[0]] + lines[1..] == lines;
      if StartsHost(lines[0]) {
        HostIsNotBlank(lines[0]);
      }
      if StartsHost(lines[0]) && current != [] {
        var rest := Group([lines[0]], lines[1..]);
        LongerBlock([], lines[0]);
        assert [] + [lines[0]] == [lines[0]];
        GroupPartitions([lines[0]], lines[1..]);
        FlattenOne(current, rest);
        ConsBlocks(current, rest);
      } else if Blank(lines[0]) && current == [] {
        GroupPartitions([], lines[1..]);
      } else {
        LongerBlock(current, lines[0]);
        GroupPartitions(current + [lines[0]], lines[1..]);
        assert current + [lines[0]] + lines[1..] == current + lines;
      }
    }
  }

  /** Lines that start no block stay with the block that has begun. */
  lemma {:induction false} GroupAbsorbs(current: Block, more: seq<string>, rest: seq<string>)
    requires current != [] && forall j :: 0 <= j < |more| ==> !StartsHost(more[j])
    ensures Group(current, more + rest) == Group(current + more, rest)
    decreases |more|
  {
    if more == [] {
      assert more + rest == rest && current + more == current;
    } else {
      GroupAbsorbs(current + [more[0]], more[1..], rest);
      assert (more + rest)[0] == more[0] && (more + rest)[1..] == more[1..] + rest;
      assert current + [more[0]] + more[1..] == current + more;
    }
  }

  lemma GroupStarts(line: string, rest: seq<string>)
    requires !Blank(line)
    ensures Group([], [line] + rest) == Group([line], rest)
  {
    hide Blank;
    assert ([line] + rest)[1..] == rest && [] + [line] == [line];
  }

  lemma GroupCuts(block: Block, rest: seq<string>)
    requires block != [] && (rest == [] || StartsHost(rest[0]))
    ensures Group(block, rest) == [block] + Group([], rest)
  {
    if rest == [] {
      assert [block] + [] == [block];
    } else {
      HostIsNotBlank(rest[0]);
      hide Blank;
      hide StartsHost;
      GroupStarts(rest[0], rest[1..]);
      assert rest == [rest[0]] + rest[1..];
    }
  }

  lemma GroupOneBlock(block: Block, rest: seq<string>)
    requires IsBlock(block) && (rest == [] || StartsHost(rest[0]))
    ensures Group([], block + rest) == [block] + Group([], rest)
  {
    hide Group;
    hide Blank;
    hide StartsHost;
    assert block + rest == [block[0]] + (block[1..] + rest);
    GroupStarts(block[0], block[1..] + rest);
    GroupAbsorbs([block[0]], block[1..], rest);
    assert [block[0]] + block[1..] == block;
    GroupCuts(block, rest);
  }

  lemma TailBlocks(blocks: seq<Block>)
    requires IsBlockList(blocks) && blocks != []
    ensures IsBlock(blocks[0]) && IsBlockList(blocks[1..])
    ensures blocks[1..] == [] || (IsBlock(blocks[1..][0]) && StartsHost(blocks[1..][0][0]))
  {
    hide IsBlock;
    hide StartsHost;
    var tail := blocks[1..];
    assert forall i :: 0 <= i < |tail| ==> tail[i] == blocks[i + 1];
  }

  lemma FlattenHead(blocks: seq<Block>, rest: seq<string>)
    requires blocks != [] && blocks[0] != []
    ensures Flatten(blocks) + rest == blocks[0] + (Flatten(blocks[1..]) + rest)
    ensures Flatten(blocks) + rest != [] && (Flatten(blocks) + rest)[0] == blocks[0][0]
  {
  }

  lemma PutBack(blocks: seq<Block>, more: seq<Block>)
    requires blocks != []
    ensures [blocks[0]] + (blocks[1..] + more) == blocks + more
  {
  }

  /** Blocks put one after the other, before anything that starts a block, are found again. */
  lemma {:induction false} GroupFindsBlocks(blocks: seq<Block>, rest: seq<string>)
    requires IsBlockList(blocks) && (rest == [] || StartsHost(rest[0]))
    ensures Group([], Flatten(blocks) + rest) == blocks + Group([], rest)
  {
    hide Group;
    hide StartsHost;
    hide IsBlockList;
    if blocks == [] {
      assert Flatten(blocks) + rest == rest;
      assert blocks + Group([], rest) == Group([], rest);
    } else {
      var tail := blocks[1..];
      TailBlocks(blocks);
      GroupFindsBlocks(tail, rest);
      FlattenHead(blocks, rest);
      if tail != [] {
        FlattenHead(tail, rest);
      } else {
        assert Flatten(tail) + rest == rest;
      }
      hide Flatten;
      hide IsBlock;
      GroupOneBlock(blocks[0], Flatten(tail) + rest);
      PutBack(blocks, Group([], rest));
    }
  }

  /** Splitting is the inverse of putting blocks together: it finds the one way to cut lines into blocks. */
  lemma SplittingIsUnique(blocks: seq<Block>)
    requires IsBlockList(blocks)
    ensures Group([], Flatten(blocks)) == blocks
  {
    GroupFindsBlocks(blocks, []);
    assert Flatten(blocks) + [] == Flatten(blocks);
  }

  // ---------------------------------------------------------------- blocks up to trailing blank lines

  function Canon(block: Block): (canon: Block)
    ensures canon <= block
  {
    if block != [] && Blank(block[|block| - 1]) then Canon(block[..|block| - 1]) else block
  }

  function CanonAll(blocks: seq<Block>): seq<Block> {
    if blocks == [] then [] else [Canon(blocks[0])] + CanonAll(blocks[1..])
  }

  lemma {:induction false} CanonAllAppend(a: seq<Block>, b: seq<Block>)
    ensures CanonAll(a + b) == CanonAll(a) + CanonAll(b)
  {
    hide Canon;
    if a == [] {
      assert a + b == b;
    } else {
      CanonAllAppend(a[1..], b);
      assert (a + b)[1..] == a[1..] + b && (a + b)[0] == a[0];
    }
  }

  /** Every block with an empty line after it. */
  function PadAll(blocks: seq<Block>): seq<Block> {
    if blocks == [] then [] else [blocks[0] + [""]] + PadAll(blocks[1..])
  }

  lemma EmptyIsBlank()
    ensures Blank("") && !StartsHost("")
  {
  }

  lemma {:induction false} PaddingIsHarmless(blocks: seq<Block>)
    ensures |PadAll(blocks)| == |blocks|
    ensures forall i :: 0 <= i < |blocks| ==> PadAll(blocks)[i] == blocks[i] + [""]
    ensures CanonAll(PadAll(blocks)) == CanonAll(blocks)
  {
    if blocks != [] {
      PaddingIsHarmless(blocks[1..]);
      EmptyIsBlank();
      assert (blocks[0] + [""])[..|blocks[0]|] == blocks[0];
    }
  }

  lemma PadOne(block: Block)
    requires IsBlock(block)
    ensures IsBlock(block + [""]) && (block + [""])[0] == block[0]
  {
    EmptyIsBlank();
    hide Blank;
    hide StartsHost;
  }

  lemma {:induction false} PaddedBlocks(blocks: seq<Block>)
    requires IsBlockList(blocks)
    ensures IsBlockList(PadAll(blocks))
    ensures blocks != [] ==> PadAll(blocks) != [] && blocks[0] != [] && PadAll(blocks)[0] == blocks[0] + [""]
  {
    hide StartsHost;
    hide Blank;
    if blocks != [] {
      hide IsBlockList;
      TailBlocks(blocks);
      PadOne(blocks[0]);
      PaddedBlocks(blocks[1..]);
      ConsBlocks(blocks[0] + [""], PadAll(blocks[1..]));
    }
  }

  // ---------------------------------------------------------------- dropping blocks

  predicate NamesHost(line: string, host: string) {
    StartsHost(line) && Trim(line[|HOST_PREFIX|..]) == host
  }

  predicate NamesDevice(line: string, device: string) {
    Trim(line) == ALIAS_PREFIX + device
  }

  predicate AnyNamesDevice(lines: Block, device: string) {
    exists i :: 0 <= i < |lines| && NamesDevice(lines[i], device)
  }

  /** The block is for this host name, or for this device. */
  predicate Replaces(lines: Block, host: string, device: string) {
    (lines != [] && NamesHost(lines[0], host)) || AnyNamesDevice(lines, device)
  }

  /** The lines that name a host or a device may be padded with white space. */
  lemma PaddedLinesName(before: string, name: string, after: string)
    requires AllSpace(before) && AllSpace(after)
    requires name != "" && !IsSpace(name[0]) && !IsSpace(name[|name| - 1])
    ensures NamesHost(HOST_PREFIX + (before + name + after), name)
    ensures NamesDevice(before + (ALIAS_PREFIX + name) + after, name)
  {
    TrimTakesThePadding(before, name, after);
    var line := HOST_PREFIX + (before + name + after);
    assert line[..|HOST_PREFIX|] == HOST_PREFIX && line[|HOST_PREFIX|..] == before + name + after;
    TrimTakesThePadding(before, ALIAS_PREFIX + name, after);
  }

  /** `blocks.retain`: blocks are texts, and judged by their lines. */
  function Retained(blocks: seq<string>, host: string, device: string): seq<string> {
    if blocks == [] then []
    else (if Replaces(Lines(blocks[0]), host, device) then [] else [blocks[0]]) + Retained(blocks[1..], host, device)
  }

  /** The same on lists of lines: what an edit means. */
  function Keep(blocks: seq<Block>, host: string, device: string): seq<Block> {
    if blocks == [] then []
    else (if Replaces(blocks[0], host, device) then [] else [blocks[0]]) + Keep(blocks[1..], host, device)
  }

  /** A block behind others is judged by itself and stays behind those of them that stay. */
  lemma {:induction false} KeepInOrder(blocks: seq<Block>, last: Block, host: string, device: string)
    ensures Keep(blocks + [last], host, device)
            == Keep(blocks, host, device) + if Replaces(last, host, device) then [] else [last]
  {
    hide Replaces;
    if blocks == [] {
      assert [] + [last] == [last] && [last][1..] == [];
    } else {
      assert (blocks + [last])[0] == blocks[0] && (blocks + [last])[1..] == blocks[1..] + [last];
      KeepHead(blocks, host, device);
      KeepHead(blocks + [last], host, device);
      hide Keep;
      KeepInOrder(blocks[1..], last, host, device);
      KeepGrouped(if Replaces(blocks[0], host, device) then [] else [blocks[0]], Keep(blocks[1..], host, device),
                  if Replaces(last, host, device) then [] else [last]);
    }
  }

  lemma KeepHead(blocks: seq<Block>, host: string, device: string)
    requires blocks != []
    ensures Keep(blocks, host, device)
            == (if Replaces(blocks[0], host, device) then [] else [blocks[0]]) + Keep(blocks[1..], host, device)
  {
    hide Replaces;
  }

  lemma KeepGrouped(a: seq<Block>, b: seq<Block>, c: seq<Block>)
    ensures a + (b + c) == a + b + c
  {
  }

  lemma BlankNamesNoDevice(line: string, device: string)
    requires Blank(line)
    ensures !NamesDevice(line, device)
  {
  }

  lemma BlankLastDecidesNothing(init: Block, last: string, host: string, device: string)
    requires init != [] && Blank(last)
    ensures Replaces(init + [last], host, device) <==> Replaces(init, host, device)
  {
    BlankNamesNoDevice(last, device);
    hide NamesDevice;
    LastNamesNothing(init, last, device);
    hide AnyNamesDevice;
    hide NamesHost;
    hide Blank;
    assert (init + [last])[0] == init[0];
  }

  lemma LastNamesNothing(init: Block, last: string, device: string)
    requires !NamesDevice(last, device)
    ensures AnyNamesDevice(init + [last], device) <==> AnyNamesDevice(init, device)
  {
    hide NamesDevice;
    var all := init + [last];
    if AnyNamesDevice(all, device) {
      var i :| 0 <= i < |all| && NamesDevice(all[i], device);
      assert i < |init| && NamesDevice(init[i], device);
    }
    if AnyNamesDevice(init, device) {
      var i :| 0 <= i < |init| && NamesDevice(init[i], device);
      assert NamesDevice(all[i], device);
    }
  }

  /** Trailing blank lines do not decide whether a block is replaced. */
  lemma {:induction false} CanonDecides(block: Block, host: string, device: string)
    requires block != [] && !Blank(block[0])
    ensures Canon(block) != [] && Canon(block)[0] == block[0]
    ensures Replaces(Canon(block), host, device) <==> Replaces(block, host, device)
  {
    hide Replaces;
    hide Blank;
    if Blank(block[|block| - 1]) {
      var init := block[..|block| - 1];
      assert block == init + [block[|block| - 1]];
      BlankLastDecidesNothing(init, block[|block| - 1], host, device);
      CanonDecides(init, host, device);
    }
  }

  /** A block printed and read again is the same up to trailing blank lines. */
  lemma PrintedBlock(block: Block, host: string, device: string)
    requires IsBlock(block) && AllOneLine(block)
    ensures Replaces(Lines(JoinWith(block, "\n")), host, device) <==> Replaces(Canon(block), host, device)
  {
    LinesOfJoin(block);
    CanonDecides(block, host, device);
    if block[|block| - 1] == "" {
      EmptyIsBlank();
      CanonDecides(block[..|block| - 1], host, device);
    }
  }

  ghost predicate AllLinesOneLine(blocks: seq<Block>) {
    forall i :: 0 <= i < |blocks| ==> AllOneLine(blocks[i])
  }

  /** Every block starts with a Host line. */
  ghost predicate AllHosts(blocks: seq<Block>) {
    forall i :: 0 <= i < |blocks| ==> IsBlock(blocks[i]) && StartsHost(blocks[i][0])
  }

  lemma TailHosts(blocks: seq<Block>)
    requires blocks != [] && IsBlockList(blocks)
    ensures IsBlock(blocks[0]) && AllHosts(blocks[1..]) && IsBlockList(blocks[1..])
    ensures blocks[0] != [] && (AllHosts(blocks) ==> StartsHost(blocks[0][0]))
  {
    assert IsBlock(blocks[0]);
    hide IsBlock;
    hide StartsHost;
    assert forall i :: 0 <= i < |blocks[1..]| ==> blocks[1..][i] == blocks[i + 1];
  }

  lemma ConsHosts(head: Block, tail: seq<Block>)
    requires IsBlock(head) && AllHosts(tail)
    ensures IsBlockList([head] + tail) && IsBlockList(tail)
    ensures StartsHost(head[0]) ==> AllHosts([head] + tail)
  {
    hide IsBlock;
    hide StartsHost;
    assert forall i :: 1 <= i < |[head] + tail| ==> ([head] + tail)[i] == tail[i - 1];
  }

  /** The blocks that stay, as lists of lines. */
  lemma {:induction false} RetainedBlocks(blocks: seq<Block>, host: string, device: string) returns (stay: seq<Block>)
    requires AllLinesOneLine(blocks) && IsBlockList(blocks)
    ensures Retained(JoinAll(blocks), host, device) == JoinAll(stay)
    ensures CanonAll(stay) == Keep(CanonAll(blocks), host, device)
    ensures AllLinesOneLine(stay) && IsBlockList(stay) && (AllHosts(blocks) ==> AllHosts(stay))
  {
    hide IsBlock;
    hide StartsHost;
    hide AllOneLine;
    hide Replaces;
    hide Canon;
    hide JoinWith;
    hide Lines;
    if blocks == [] {
      stay := [];
    } else {
      var head, more := blocks[0], blocks[1..];
      TailHosts(blocks);
      var tail := RetainedBlocks(more, host, device);
      PrintedBlock(head, host, device);
      ConsHosts(head, tail);
      hide AllHosts;
      hide IsBlockList;
      assert JoinAll(blocks) == [JoinWith(head, "\n")] + JoinAll(more);
      assert JoinAll(blocks)[1..] == JoinAll(more);
      assert CanonAll(blocks) == [Canon(head)] + CanonAll(more);
      assert CanonAll(blocks)[1..] == CanonAll(more);
      stay := if Replaces(Canon(head), host, device) then tail else [head] + tail;
      assert ([head] + tail)[1..] == tail;
    }
  }

  // ---------------------------------------------------------------- printing

  lemma {:induction false} PrintedBody(stay: seq<Block>, last: Block)
    requires last != [] && forall i :: 0 <= i < |stay| ==> stay[i] != []
    ensures JoinWith(JoinAll(stay) + [JoinWith(last, "\n")], "\n\n") + "\n" == Unlines(Flatten(PadAll(stay)) + last)
  {
    var tailText := JoinWith(last, "\n");
    if stay == [] {
      assert JoinAll(stay) + [tailText] == [tailText];
      JoinIsUnlines(last);
      assert Flatten(PadAll(stay)) + last == last;
    } else {
      var head, more := stay[0], stay[1..];
      PrintedBody(more, last);
      var texts := JoinAll(more) + [tailText];
      assert JoinAll(stay) + [tailText] == [JoinWith(head, "\n")] + texts;
      JoinCons(JoinWith(head, "\n"), texts, "\n\n");
      JoinIsUnlines(head);
      UnlinesAppend(head, [""]);
      UnlinesAppend(head + [""], Flatten(PadAll(more)) + last);
      assert Flatten(PadAll(stay)) + last == head + [""] + (Flatten(PadAll(more)) + last);
      assert Unlines([""]) == "\n";
      OneBreakMore(JoinWith(head, "\n"), JoinWith(texts, "\n\n"));
    }
  }

  lemma OneBreakMore(head: string, rest: string)
    ensures head + "\n\n" + rest + "\n" == head + "\n" + "\n" + (rest + "\n")
  {
  }

  /** The blocks of a managed body, up to trailing blank lines. */
  function BlocksIn(body: string): seq<Block> {
    CanonAll(Group([], Lines(body)))
  }

  lemma {:induction false} GroupLinesAreLines(current: Block, lines: seq<string>)
    requires AllOneLine(current) && AllOneLine(lines)
    ensures AllLinesOneLine(Group(current, lines))
    decreases |lines|
  {
    if lines != [] {
      GroupLinesAreLines([lines[0]], lines[1..]);
      GroupLinesAreLines([], lines[1..]);
      GroupLinesAreLines(current + [lines[0]], lines[1..]);
    }
  }

  lemma {:induction false} FlattenLines(blocks: seq<Block>)
    requires AllLinesOneLine(blocks)
    ensures AllOneLine(Flatten(blocks))
  {
    if blocks != [] {
      FlattenLines(blocks[1..]);
    }
  }

  /** A block as the editor accepts it: no CR, no trailing white space, and it starts with a Host line. */
  predicate Editable(block: string) {
    NoCr(block) && StartsHost(block) && !IsSpace(block[|block| - 1])
  }

  lemma EditableLines(block: string)
    requires Editable(block)
    ensures AllOneLine(Lines(block)) && Lines(block) != [] && StartsHost(Lines(block)[0])
    ensures JoinWith(Lines(block), "\n") == block
  {
    assert IsSpace('\n');
    LinesAreOneLine(block);
    JoinOfLines(block);
    var i := LineEnd(block);
    assert forall j :: 0 <= j < |HOST_PREFIX| ==> block[j] == HOST_PREFIX[j] && block[j] != '\n';
    if i < |block| {
      CutAtBreak(block, i);
    }
  }

  /** Retained blocks and a last one, printed as a body and split again. */
  lemma PrintedLines(stay: seq<Block>, last: Block)
    requires last != [] && AllOneLine(last) && AllLinesOneLine(stay) && forall i :: 0 <= i < |stay| ==> stay[i] != []
    ensures Lines("\n" + JoinWith(JoinAll(stay) + [JoinWith(last, "\n")], "\n\n") + "\n") == [""] + (Flatten(PadAll(stay)) + last)
  {
    var lines := Flatten(PadAll(stay)) + last;
    var text := JoinWith(JoinAll(stay) + [JoinWith(last, "\n")], "\n\n");
    PrintedBody(stay, last);
    assert AllOneLine([""] + lines) by {
      PaddingIsHarmless(stay);
      FlattenLines(PadAll(stay));
    }
    hide AllOneLine;
    hide JoinWith;
    hide Flatten;
    hide PadAll;
    hide JoinAll;
    FirstBreak(text, lines);
    LinesOfUnlines([""] + lines);
  }

  lemma RegroupedLines(stay: seq<Block>, last: Block)
    requires IsBlockList(stay) && last != [] && StartsHost(last[0])
    ensures CanonAll(Group([], [""] + (Flatten(PadAll(stay)) + last))) == CanonAll(stay) + CanonAll(Group([], last))
  {
    var lines := Flatten(PadAll(stay)) + last;
    EmptyIsBlank();
    assert ([""] + lines)[0] == "" && ([""] + lines)[1..] == lines;
    assert Group([], [""] + lines) == Group([], lines);
    hide Group;
    PaddedBlocks(stay);
    PaddingIsHarmless(stay);
    GroupFindsBlocks(PadAll(stay), last);
    CanonAllAppend(PadAll(stay), Group([], last));
  }

  /** The new body is the old one without the replaced blocks and with the new ones at its end. */
  lemma EditedBody(body: string, block: string, host: string, device: string)
    requires NoCr(body) && Editable(block)
    ensures BlocksIn("\n" + JoinWith(Retained(SplitBlocks(body), host, device) + [block], "\n\n") + "\n")
            == Keep(BlocksIn(body), host, device) + BlocksIn(block)
  {
    var groups, last := Group([], Lines(body)), Lines(block);
    LinesAreOneLine(body);
    GroupLinesAreLines([], Lines(body));
    GroupPartitions([], Lines(body));
    EditableLines(block);
    hide Group;
    hide Lines;
    hide Flatten;
    hide AllOneLine;
    hide JoinAll;
    hide JoinWith;
    hide Editable;
    hide StartsHost;
    hide Blank;
    hide Replaces;
    var stay := RetainedBlocks(groups, host, device);
    PrintedLines(stay, last);
    RegroupedLines(stay, last);
  }

  lemma FirstBreak(text: string, lines: seq<string>)
    requires text + "\n" == Unlines(lines)
    ensures "\n" + text + "\n" == Unlines([""] + lines)
  {
    assert ([""] + lines)[1..] == lines;
    assert "\n" + text + "\n" == "" + "\n" + (text + "\n");
  }
}
