/** The rule-based pass over consumed messages: `light_compress_tool_results`
    (core/compressor.py). */
module LightCompression {
  import opened Text
  import opened Messages
  import opened MessageStorage

  const COMPRESSED_MARKER := "【工具执行结果 - 已压缩】"
  const IMAGE_PREFIX := "[图片已在前文查看]"

  // ---------- one message ----------

  predicate Contains(text: string, part: string) {
    exists i :: 0 <= i <= |text| && part <= text[i..]
  }

  /** Text of the text blocks, one per line. */
  function JoinTexts(blocks: seq<Block>): string {
    var texts := TextsOf(blocks);
    if texts == [] then "" else JoinLines(texts)
  }

  function TextsOf(blocks: seq<Block>): seq<string> {
    if blocks == [] then []
    else (if blocks[0].TextBlock? then [blocks[0].text] else []) + TextsOf(blocks[1..])
  }

  function ContentText(content: Content): string {
    match content
    case Absent => ""
    case Text(text) => text
    case Blocks(blocks) => JoinTexts(blocks)
  }

  predicate Stubbed(m: Message) {
    Contains(ContentText(m.content), COMPRESSED_MARKER)
  }

  /** A tool result reduced to its metadata, whose wording is `describe`. */
  function Stub(m: Message, describe: Message -> string): Message {
    if Stubbed(m) then m
    else m.(content := Text(COMPRESSED_MARKER + "\n" + describe(m)))
  }

  lemma StubIsStubbed(m: Message, describe: Message -> string)
    ensures Stubbed(Stub(m, describe))
  {
    if !Stubbed(m) {
      var text := COMPRESSED_MARKER + "\n" + describe(m);
      assert COMPRESSED_MARKER <= text[0..];
    }
  }

  function DowngradeBlock(block: Block): Block {
    if block.ImageBlock? then TextBlock(IMAGE_PREFIX + block.name) else block
  }

  function DowngradeBlocks(blocks: seq<Block>): seq<Block> {
    seq(|blocks|, i requires 0 <= i < |blocks| => DowngradeBlock(blocks[i]))
  }

  /** Images replaced by text placeholders. */
  function Downgrade(m: Message): Message {
    if m.content.Blocks? then m.(content := Blocks(DowngradeBlocks(m.content.blocks))) else m
  }

  // ---------- the whole list ----------

  datatype Mode = Mode(compressResults: bool, keepRecent: int)

  /** The model has answered since. */
  predicate Consumed(ms: seq<Message>, i: nat) {
    exists j :: i < j < |ms| && ms[j].role.Assistant?
  }

  /** A consumed tool result whose text is still there. */
  predicate Fresh(ms: seq<Message>, i: nat)
    requires i < |ms|
  {
    ms[i].role.Tool? && Consumed(ms, i) && !Stubbed(ms[i])
  }

  /** How many of them there are from position i on. */
  function FreshFrom(ms: seq<Message>, i: nat): nat
    requires i <= |ms|
    decreases |ms| - i
  {
    if i == |ms| then 0 else (if Fresh(ms, i) then 1 else 0) + FreshFrom(ms, i + 1)
  }

  /** What becomes of the message at i: assistants and unconsumed messages stay, the
      `keepRecent` latest fresh results stay, older results become stubs and other
      consumed messages lose their images. */
  function LightAt(ms: seq<Message>, i: nat, mode: Mode, describe: Message -> string): Message
    requires i < |ms|
  {
    if ms[i].role.Assistant? || !Consumed(ms, i) then ms[i]
    else if ms[i].role.Tool? then
      if !mode.compressResults then ms[i]
      else if mode.keepRecent > 0 && Fresh(ms, i) && FreshFrom(ms, i) <= mode.keepRecent then ms[i]
      else Stub(ms[i], describe)
    else Downgrade(ms[i])
  }

  function Light(ms: seq<Message>, mode: Mode, describe: Message -> string): (r: seq<Message>)
    ensures |r| == |ms|
  {
    seq(|ms|, i requires 0 <= i < |ms| => LightAt(ms, i, mode, describe))
  }

  /** Content tokens of a list, runtime records included. */
  function RawTokens(ms: seq<Message>): nat {
    if ms == [] then 0 else Tokens(ms[0].content) + RawTokens(ms[1..])
  }

  // ---------- the code ----------

  method DowngradeImages(m: Message) returns (r: Message, changed: bool)
    ensures r == Downgrade(m)
    ensures !changed ==> r == m
  {
    r, changed := m, false;
    if !m.content.Blocks? {
      return;
    }
    var blocks := m.content.blocks;
    var rewritten: seq<Block> := [];
    for i := 0 to |blocks|
      invariant rewritten == DowngradeBlocks(blocks)[..i]
      invariant !changed ==> rewritten == blocks[..i]
    {
      if blocks[i].ImageBlock? {
        rewritten := rewritten + [TextBlock(IMAGE_PREFIX + blocks[i].name)];
        changed := true;
      } else {
        rewritten := rewritten + [blocks[i]];
      }
    }
    assert DowngradeBlocks(blocks)[..|blocks|] == DowngradeBlocks(blocks) && blocks[..|blocks|] == blocks;
    if changed {
      r := m.(content := Blocks(rewritten));
    }
  }

  /** One backward pass that decides and rewrites at the same time. */
  method LightCompress(store: MessageStore, mode: Mode, describe: Message -> string)
    returns (oldTotal: nat, newTotal: nat)
    modifies store`messages
    ensures store.messages == Light(old(store.messages), mode, describe)
    ensures oldTotal == RawTokens(old(store.messages))
    ensures newTotal == RawTokens(store.messages)
  {
    oldTotal, newTotal := 0, 0;
    ghost var was := store.messages;
    ghost var spec := Light(was, mode, describe);
    var seenAssistant := false;
    var recent := 0;
    var i := |store.messages|;
    while i > 0
      invariant 0 <= i <= |was| == |store.messages|
      invariant store.messages == was[..i] + spec[i..]
      invariant seenAssistant <==> exists j :: i <= j < |was| && was[j].role.Assistant?
      invariant mode.compressResults && mode.keepRecent > 0 ==> recent == FreshFrom(was, i)
      invariant oldTotal == RawFrom(was, i) && newTotal == RawFrom(spec, i)
    {
      i := i - 1;
      var m := store.messages[i];
      assert m == was[i];
      assert seenAssistant <==> Consumed(was, i);
      assert Fresh(was, i) <==> m.role.Tool? && seenAssistant && !Stubbed(m);
      oldTotal := oldTotal + Tokens(m.content);
      var r := m;
      if m.role.Assistant? {
        seenAssistant := true;
      } else if seenAssistant {
        if m.role.Tool? {
          if mode.compressResults {
            var keep := false;
            if mode.keepRecent > 0 && !Stubbed(m) {
              recent := recent + 1;
              keep := recent <= mode.keepRecent;
            }
            if !keep {
              r := Stub(m, describe);
            }
          }
        } else {
          var changed;
          r, changed := DowngradeImages(m);
        }
      }
      assert r == LightAt(was, i, mode, describe);
      OneMore(was, spec, i);
      store.messages := store.messages[i := r];
      newTotal := newTotal + Tokens(r.content);
    }
    RawFromStart(was, 0);
    RawFromStart(spec, 0);
    assert was[0..] == was && spec[0..] == spec;
  }

  function RawFrom(ms: seq<Message>, i: nat): nat
    requires i <= |ms|
    decreases |ms| - i
  {
    if i == |ms| then 0 else Tokens(ms[i].content) + RawFrom(ms, i + 1)
  }

  lemma {:induction false} RawFromStart(ms: seq<Message>, i: nat)
    requires i <= |ms|
    ensures RawFrom(ms, i) == RawTokens(ms[i..])
    decreases |ms| - i
  {
    if i < |ms| {
      RawFromStart(ms, i + 1);
      assert ms[i..][1..] == ms[i + 1..];
    }
  }

  lemma OneMore(was: seq<Message>, spec: seq<Message>, i: nat)
    requires i < |was| == |spec|
    ensures (was[..i + 1] + spec[i + 1..])[i := spec[i]] == was[..i] + spec[i..]
  {
  }

  // ---------- what the pass guarantees ----------

  lemma LightShape(ms: seq<Message>, mode: Mode, describe: Message -> string)
    ensures SameShapes(ms, Light(ms, mode, describe))
  {
    forall i | 0 <= i < |ms| ensures SameShape(ms[i], Light(ms, mode, describe)[i]) {
      assert Light(ms, mode, describe)[i] == LightAt(ms, i, mode, describe);
    }
  }

  lemma LightArranged(ms: seq<Message>, mode: Mode, describe: Message -> string)
    requires Arranged(ms)
    ensures Arranged(Light(ms, mode, describe)) && (Headed(ms) <==> Headed(Light(ms, mode, describe)))
  {
    LightShape(ms, mode, describe);
    ArrangedShape(ms, Light(ms, mode, describe));
  }

  lemma LightConsumed(ms: seq<Message>, mode: Mode, describe: Message -> string, i: nat)
    requires i < |ms|
    ensures Consumed(Light(ms, mode, describe), i) <==> Consumed(ms, i)
    ensures Light(ms, mode, describe)[i].role == ms[i].role
  {
    LightShape(ms, mode, describe);
    var r := Light(ms, mode, describe);
    forall j | 0 <= j < |ms| ensures r[j].role == ms[j].role {
      assert SameShape(ms[j], r[j]);
    }
  }

  function Max(a: int, b: int): int {
    if a < b then b else a
  }

  function Min(a: int, b: int): int {
    if a < b then a else b
  }

  /** Exactly the `keepRecent` latest fresh results survive from every position on. */
  lemma {:induction false} LightFresh(ms: seq<Message>, mode: Mode, describe: Message -> string, i: nat)
    requires mode.compressResults && i <= |ms|
    ensures FreshFrom(Light(ms, mode, describe), i) == Min(FreshFrom(ms, i), Max(mode.keepRecent, 0))
    decreases |ms| - i
  {
    if i < |ms| {
      LightFresh(ms, mode, describe, i + 1);
      LightConsumed(ms, mode, describe, i);
      assert Light(ms, mode, describe)[i] == LightAt(ms, i, mode, describe);
      StubIsStubbed(ms[i], describe);
    }
  }

  /** A second pass with the same parameters changes nothing. */
  lemma LightIdempotent(ms: seq<Message>, mode: Mode, describe: Message -> string)
    ensures Light(Light(ms, mode, describe), mode, describe) == Light(ms, mode, describe)
  {
    var once := Light(ms, mode, describe);
    forall i | 0 <= i < |ms| ensures LightAt(once, i, mode, describe) == once[i] {
      LightConsumed(ms, mode, describe, i);
      assert once[i] == LightAt(ms, i, mode, describe);
      StubIsStubbed(ms[i], describe);
      DowngradeTwice(ms[i]);
      if mode.compressResults {
        LightFresh(ms, mode, describe, i);
      }
    }
  }

  lemma DowngradeTwice(m: Message)
    ensures Downgrade(Downgrade(m)) == Downgrade(m)
  {
    if m.content.Blocks? {
      var once := DowngradeBlocks(m.content.blocks);
      assert DowngradeBlocks(once) == once;
    }
  }

  /** No image is left in a consumed message that is neither a result nor an answer. */
  lemma LightImages(ms: seq<Message>, mode: Mode, describe: Message -> string, i: nat, k: nat)
    requires i < |ms| && Consumed(ms, i) && !ms[i].role.Tool? && !ms[i].role.Assistant?
    ensures var c := Light(ms, mode, describe)[i].content;
            c.Blocks? && k < |c.blocks| ==> !c.blocks[k].ImageBlock?
  {
    assert Light(ms, mode, describe)[i] == LightAt(ms, i, mode, describe);
  }

  // ---------- the outcome, message by message ----------

  /** The text that a consumed result is searched in; blocks are looked at one by one. */
  predicate Marked(m: Message) {
    match m.content
    case Absent => false
    case Text(text) => Occurs(COMPRESSED_MARKER, text)
    case Blocks(blocks) => SomeBlock(COMPRESSED_MARKER, blocks)
  }

  lemma ContainsIff(text: string, part: string)
    ensures Contains(text, part) <==> Occurs(part, text)
  {
    if Contains(text, part) {
      var i :| 0 <= i <= |text| && part <= text[i..];
      assert text[i..i + |part|] == text[i..][..|part|] == part;
      assert BeginsAt(part, text, i);
    }
    if Occurs(part, text) {
      var i: nat :| i <= |text| && BeginsAt(part, text, i);
      assert text[i..][..|part|] == text[i..i + |part|];
      assert part <= text[i..];
    }
  }

  /** A part without line breaks occurs in joined lines exactly if it occurs in one of them. */
  lemma {:induction false} OccursInLines(part: string, lines: seq<string>)
    requires lines != [] && part != "" && OneLine(part)
    ensures Occurs(part, JoinLines(lines)) <==> SomeLine(part, lines)
    decreases |lines|
  {
    assert lines == [lines[0]] + lines[1..];
    FirstLine(lines[0], lines[1..], part);
    if |lines| > 1 {
      OccursInLines(part, lines[1..]);
      OccursAcross(part, lines[0], JoinLines(lines[1..]));
    }
  }

  lemma OccursAcross(part: string, a: string, b: string)
    requires part != "" && OneLine(part)
    ensures Occurs(part, a + "\n" + b) <==> Occurs(part, a) || Occurs(part, b)
  {
    var text := a + "\n" + b;
    if Occurs(part, text) {
      var i: nat :| i <= |text| && BeginsAt(part, text, i);
      OccursOnOneSide(part, a, b, i);
    }
    BothOccur(a, b);
    if Occurs(part, a) {
      OccursWithin(part, a, text);
    }
    if Occurs(part, b) {
      OccursWithin(part, b, text);
    }
  }

  lemma BothOccur(a: string, b: string)
    ensures Occurs(a, a + "\n" + b) && Occurs(b, a + "\n" + b)
  {
    var text := a + "\n" + b;
    assert text[0..|a|] == a && text[|a| + 1..|a| + 1 + |b|] == b;
    assert BeginsAt(a, text, 0) && BeginsAt(b, text, |a| + 1);
  }

  lemma OccursOnOneSide(part: string, a: string, b: string, i: nat)
    requires part != "" && OneLine(part) && BeginsAt(part, a + "\n" + b, i)
    ensures Occurs(part, a) || Occurs(part, b)
  {
    var text := a + "\n" + b;
    if i + |part| <= |a| {
      assert a[i..i + |part|] == text[i..i + |part|];
      assert BeginsAt(part, a, i);
    } else if i > |a| {
      var j: nat := i - |a| - 1;
      assert b[j..j + |part|] == text[i..i + |part|];
      assert BeginsAt(part, b, j);
    } else {
      BreakInside(part, a, b, i);
      assert false;
    }
  }

  lemma BreakInside(part: string, a: string, b: string, i: nat)
    requires BeginsAt(part, a + "\n" + b, i) && i <= |a| < i + |part|
    ensures !OneLine(part)
  {
    var text := a + "\n" + b;
    assert text[i..i + |part|][|a| - i] == text[|a|] == '\n';
  }

  predicate SomeLine(part: string, lines: seq<string>) {
    exists i :: 0 <= i < |lines| && Occurs(part, lines[i])
  }

  predicate SomeBlock(part: string, blocks: seq<Block>) {
    exists i :: 0 <= i < |blocks| && blocks[i].TextBlock? && Occurs(part, blocks[i].text)
  }

  lemma {:induction false} TextsAre(blocks: seq<Block>, part: string)
    ensures SomeLine(part, TextsOf(blocks)) <==> SomeBlock(part, blocks)
  {
    if blocks != [] {
      var rest, all := TextsOf(blocks[1..]), TextsOf(blocks);
      TextsAre(blocks[1..], part);
      FirstBlock(blocks, part);
      if blocks[0].TextBlock? {
        assert all == [blocks[0].text] + rest;
        FirstLine(blocks[0].text, rest, part);
      } else {
        assert all == rest;
      }
    }
  }

  lemma FirstLine(line: string, rest: seq<string>, part: string)
    ensures SomeLine(part, [line] + rest) <==> Occurs(part, line) || SomeLine(part, rest)
  {
    var all := [line] + rest;
    if SomeLine(part, rest) {
      var i :| 0 <= i < |rest| && Occurs(part, rest[i]);
      assert Occurs(part, all[i + 1]);
    }
    if Occurs(part, line) {
      assert Occurs(part, all[0]);
    }
  }

  lemma FirstBlock(blocks: seq<Block>, part: string)
    requires blocks != []
    ensures SomeBlock(part, blocks) <==>
            (blocks[0].TextBlock? && Occurs(part, blocks[0].text)) || SomeBlock(part, blocks[1..])
  {
    if SomeBlock(part, blocks[1..]) {
      var i :| 0 <= i < |blocks[1..]| && blocks[1..][i].TextBlock? && Occurs(part, blocks[1..][i].text);
      assert blocks[i + 1] == blocks[1..][i];
    }
    if SomeBlock(part, blocks) {
      var i :| 0 <= i < |blocks| && blocks[i].TextBlock? && Occurs(part, blocks[i].text);
      assert i > 0 ==> blocks[1..][i - 1] == blocks[i];
    }
  }

  /** A result counts as compressed exactly if one of its texts holds the marker. */
  lemma StubbedIff(m: Message)
    ensures Stubbed(m) <==> Marked(m)
  {
    ContainsIff(ContentText(m.content), COMPRESSED_MARKER);
    if m.content.Blocks? {
      TextsAre(m.content.blocks, COMPRESSED_MARKER);
      if TextsOf(m.content.blocks) != [] {
        OccursInLines(COMPRESSED_MARKER, TextsOf(m.content.blocks));
      }
    }
  }

  /** The results behind position i that an assistant message follows and whose text is
      still there. */
  function FreshBehind(ms: seq<Message>, i: nat): set<nat> {
    set j | i < j < |ms| && ms[j].role.Tool? && !Marked(ms[j]) && exists k :: j < k < |ms| && ms[k].role.Assistant?
  }

  lemma {:induction false} FreshCount(ms: seq<Message>, i: nat)
    requires i < |ms|
    ensures FreshFrom(ms, i + 1) == |FreshBehind(ms, i)|
    decreases |ms| - i
  {
    if i + 1 < |ms| {
      FreshCount(ms, i + 1);
      StubbedIff(ms[i + 1]);
      var here := if Fresh(ms, i + 1) then {i + 1} else {};
      assert FreshBehind(ms, i) == FreshBehind(ms, i + 1) + here;
    } else {
      assert FreshBehind(ms, i) == {};
    }
  }

  /** What the model has not answered stays, and so does what it said itself. */
  lemma LightKeeps(ms: seq<Message>, mode: Mode, describe: Message -> string, i: nat)
    requires i < |ms|
    requires ms[i].role.Assistant? || forall j :: i < j < |ms| ==> !ms[j].role.Assistant?
    ensures Light(ms, mode, describe)[i] == ms[i]
  {
  }

  /** A tool result that the model has answered stays exactly as it is if results are not to
      be compressed, if it is a stub already, or if fewer than `keepRecent` such results
      with their text follow; otherwise its content becomes the marker and the description. */
  lemma LightResult(ms: seq<Message>, mode: Mode, describe: Message -> string, i: nat)
    requires i < |ms| && ms[i].role.Tool? && exists j :: i < j < |ms| && ms[j].role.Assistant?
    ensures Light(ms, mode, describe)[i] ==
      if !mode.compressResults || Marked(ms[i]) || |FreshBehind(ms, i)| < mode.keepRecent then ms[i]
      else ms[i].(content := Text(COMPRESSED_MARKER + "\n" + describe(ms[i])))
  {
    StubbedIff(ms[i]);
    FreshCount(ms, i);
    assert Light(ms, mode, describe)[i] == LightAt(ms, i, mode, describe);
  }

  /** Any other message that has been answered keeps its text and loses its images. */
  lemma LightOther(ms: seq<Message>, mode: Mode, describe: Message -> string, i: nat)
    requires i < |ms| && !ms[i].role.Tool? && !ms[i].role.Assistant?
    requires exists j :: i < j < |ms| && ms[j].role.Assistant?
    ensures var r := Light(ms, mode, describe)[i];
            && r == ms[i].(content := r.content)
            && if !ms[i].content.Blocks? then r.content == ms[i].content
               else
                 var was := ms[i].content.blocks;
                 r.content.Blocks? && |r.content.blocks| == |was| && forall k :: 0 <= k < |was| ==>
                   r.content.blocks[k] ==
                     if was[k].ImageBlock? then TextBlock("[图片已在前文查看]" + was[k].name) else was[k]
  {
    assert Light(ms, mode, describe)[i] == LightAt(ms, i, mode, describe);
  }
}
