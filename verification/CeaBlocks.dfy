/**
 The two walkers over a CEA data-block collection (section 7.5 of CEA-861) and the audio data block
 extraction (msm/sde_edid_parser.c).
 */
module CeaBlocks {

  const BLOCK := 128
  const REACH := 288
  const START := 4
  const AUDIO := 1
  const MAX_ADB := 5
  const MAX_ADB_SIZE := 30

  type byte = x: int | 0 <= x < 256

  /**
   An extension block of 128 bytes and the memory behind it, as far as a walk can get: the end offset
   in byte 2 may be up to 255, and the last block may reach 31 bytes further.
   */
  type Cea = s: seq<byte> | |s| == 288 witness seq(288, i => 0)

  function Len(b: byte): nat { b % 32 }

  function Tag(b: byte): nat { b / 32 }

  // ---------------------------------------------------------------- the two walkers

  /** `sde_for_each_cea_db` from offset `i`: the first block with the tag, or -1. */
  function WalkA(cea: Cea, i: nat, end: nat, tag: int): int
    requires end <= 255
    decreases end - i
  {
    if i >= end || i + Len(cea[i]) >= end then -1
    else if Tag(cea[i]) == tag then i
    else WalkA(cea, i + Len(cea[i]) + 1, end, tag)
  }

  /** `sde_edid_find_block`. */
  function FindA(cea: Cea, tag: int): int {
    var end := if cea[2] == 0 then 127 else cea[2];
    if cea[1] < 3 || end < 4 || end > 127 then -1 else WalkA(cea, START, end, tag)
  }

  /** The loop of `_sde_edid_find_block` from offset `i`. */
  function WalkB(cea: Cea, i: nat, end: nat, tag: int): (r: int)
    requires end <= 255
    ensures r == -1 || (i <= r < end && r + Len(cea[r]) <= end && Tag(cea[r]) == tag)
    decreases end - i
  {
    if i >= end then -1
    else if i + Len(cea[i]) <= end && Tag(cea[i]) == tag then i
    else WalkB(cea, i + 1 + Len(cea[i]), end, tag)
  }

  /** `_sde_edid_find_block`. */
  function FindB(cea: Cea, start: nat, tag: int): (r: int)
    ensures r == -1 || (start <= r < cea[2] && r + Len(cea[r]) <= cea[2] && Tag(cea[r]) == tag)
  {
    if cea[2] == 0 || cea[2] == 4 then -1 else WalkB(cea, start, cea[2], tag)
  }

  /** The offset at which the first walker stops. */
  function StopsAt(cea: Cea, i: nat, end: nat): nat
    requires end <= 255
    decreases end - i
  {
    if i >= end || i + Len(cea[i]) >= end then i else StopsAt(cea, i + Len(cea[i]) + 1, end)
  }

  /** The block at which the first walker stops reaches exactly one byte too far, and has the tag. */
  ghost predicate OneByteOver(cea: Cea, i: nat, end: nat, tag: int)
    requires end <= 255
  {
    var s := StopsAt(cea, i, end);
    s < end && s + Len(cea[s]) == end && Tag(cea[s]) == tag
  }

  lemma {:induction false} WalksAgreeIff(cea: Cea, i: nat, end: nat, tag: int)
    requires end <= 255
    ensures WalkA(cea, i, end, tag) == WalkB(cea, i, end, tag) <==>
            WalkA(cea, i, end, tag) != -1 || !OneByteOver(cea, i, end, tag)
    decreases end - i
  {
    if i < end && i + Len(cea[i]) < end && Tag(cea[i]) != tag {
      WalksAgreeIff(cea, i + Len(cea[i]) + 1, end, tag);
    } else if i < end && i + Len(cea[i]) >= end {
      assert WalkB(cea, i + 1 + Len(cea[i]), end, tag) == -1;
    }
  }

  /** Blocks exactly tile the bytes from `i` up to `end`. */
  ghost predicate Tiles(cea: Cea, i: nat, end: nat)
    requires end <= 255
    decreases end - i
  {
    i == end || (i < end && i + Len(cea[i]) < end && Tiles(cea, i + Len(cea[i]) + 1, end))
  }

  /** The block offsets of a walk. */
  ghost function Blocks(cea: Cea, i: nat, end: nat): seq<nat>
    requires end <= 255
    decreases end - i
  {
    if i >= end || i + Len(cea[i]) >= end then [] else [i] + Blocks(cea, i + Len(cea[i]) + 1, end)
  }

  ghost predicate FirstWithTag(cea: Cea, blocks: seq<nat>, tag: int, r: int) {
    && (forall k :: 0 <= k < |blocks| ==> blocks[k] < REACH)
    && (r == -1 ==> forall k :: 0 <= k < |blocks| ==> Tag(cea[blocks[k]]) != tag)
    && (r != -1 ==> exists k :: 0 <= k < |blocks| && blocks[k] == r && Tag(cea[r]) == tag &&
                      forall j :: 0 <= j < k ==> Tag(cea[blocks[j]]) != tag)
  }

  lemma {:induction false} WalkIsFirst(cea: Cea, i: nat, end: nat, tag: int)
    requires end <= 255
    ensures FirstWithTag(cea, Blocks(cea, i, end), tag, WalkA(cea, i, end, tag))
    decreases end - i
  {
    if i < end && i + Len(cea[i]) < end {
      var next := i + Len(cea[i]) + 1;
      WalkIsFirst(cea, next, end, tag);
      var rest, bs := Blocks(cea, next, end), Blocks(cea, i, end);
      var r := WalkA(cea, i, end, tag);
      if r == i {
        assert bs[0] == r;
      } else if r != -1 {
        var k :| 0 <= k < |rest| && rest[k] == r && Tag(cea[r]) == tag && forall j :: 0 <= j < k ==> Tag(cea[rest[j]]) != tag;
        assert bs[k + 1] == r;
        forall j | 0 <= j < k + 1 ensures Tag(cea[bs[j]]) != tag {
          if j > 0 {
            assert bs[j] == rest[j - 1];
          }
        }
      }
    }
  }

  lemma {:induction false} TiledStopsAtEnd(cea: Cea, i: nat, end: nat)
    requires end <= 255 && Tiles(cea, i, end)
    ensures StopsAt(cea, i, end) == end
    decreases end - i
  {
    if i < end {
      TiledStopsAtEnd(cea, i + Len(cea[i]) + 1, end);
    }
  }

  ghost predicate HasTag(cea: Cea, blocks: seq<nat>, tag: int) {
    exists k :: 0 <= k < |blocks| && blocks[k] < REACH && Tag(cea[blocks[k]]) == tag
  }

  lemma {:induction false} WalkAFinds(cea: Cea, i: nat, end: nat, tag: int)
    requires end <= 255
    ensures WalkA(cea, i, end, tag) != -1 <==> HasTag(cea, Blocks(cea, i, end), tag)
  {
    WalkIsFirst(cea, i, end, tag);
    hide WalkA, Blocks;
  }

  lemma {:induction false} WalkBFinds(cea: Cea, i: nat, end: nat, tag: int)
    requires end <= 255
    ensures WalkB(cea, i, end, tag) != -1 <==> HasTag(cea, Blocks(cea, i, end), tag) || OneByteOver(cea, i, end, tag)
  {
    WalkAFinds(cea, i, end, tag);
    WalksAgreeIff(cea, i, end, tag);
    WalkOver(cea, i, end, tag);
    hide Blocks, HasTag;
  }

  lemma {:induction false} WalkOver(cea: Cea, i: nat, end: nat, tag: int)
    requires end <= 255
    ensures WalkA(cea, i, end, tag) != -1 ==> WalkB(cea, i, end, tag) != -1
    ensures WalkB(cea, i, end, tag) != -1 ==> WalkA(cea, i, end, tag) != -1 || OneByteOver(cea, i, end, tag)
    decreases end - i
  {
    if i < end && i + Len(cea[i]) < end && Tag(cea[i]) != tag {
      WalkOver(cea, i + Len(cea[i]) + 1, end, tag);
    }
  }

  /**
   When the walkers agree: without an end offset only the first one walks, below revision 3 and with
   an end offset beyond the block only the second one does, and otherwise they differ in a last block
   that is cut short by one byte.
   */
  ghost predicate Agree(cea: Cea, tag: int) {
    if cea[2] == 0 then cea[1] >= 3 ==> !HasTag(cea, Blocks(cea, START, 127), tag)
    else if cea[2] < 4 then true
    else if cea[1] < 3 || cea[2] > 127 then
      !HasTag(cea, Blocks(cea, START, cea[2]), tag) && !OneByteOver(cea, START, cea[2], tag)
    else HasTag(cea, Blocks(cea, START, cea[2]), tag) || !OneByteOver(cea, START, cea[2], tag)
  }

  /** For every extension block and every tag the two walkers return the same block exactly then. */
  lemma {:induction false} FindersAgreeIff(cea: Cea, tag: int)
    ensures FindA(cea, tag) == FindB(cea, START, tag) <==> Agree(cea, tag)
  {
    var end := if cea[2] == 0 then 127 else cea[2];
    WalkAFinds(cea, START, end, tag);
    WalkBFinds(cea, START, end, tag);
    WalksAgreeIff(cea, START, end, tag);
    hide WalkA, HasTag;
  }

  /** A block of revision `rev` and end offset `end` that starts with one four-byte audio block. */
  function ExBlock(rev: byte, end: byte): Cea {
    seq(288, i requires 0 <= i => if i == 1 then rev else if i == 2 then end else if i == START then 36 else 0)
  }

  /** They do differ: one byte short, without an end offset, below revision 3, beyond the block. */
  lemma {:induction false} WalkersDiffer()
    ensures FindA(ExBlock(3, 8), AUDIO) == -1 && FindB(ExBlock(3, 8), START, AUDIO) == START
    ensures FindA(ExBlock(3, 0), AUDIO) == START && FindB(ExBlock(3, 0), START, AUDIO) == -1
    ensures FindA(ExBlock(1, 9), AUDIO) == -1 && FindB(ExBlock(1, 9), START, AUDIO) == START
    ensures FindA(ExBlock(3, 200), AUDIO) == -1 && FindB(ExBlock(3, 200), START, AUDIO) == START
  {
    assert forall rev, end :: ExBlock(rev, end)[1] == rev && ExBlock(rev, end)[2] == end && ExBlock(rev, end)[START] == 36;
  }

  /** On a well-formed collection both walkers return the first block with the tag. */
  lemma {:induction false} FindersAgreeOnTiled(cea: Cea, tag: int)
    requires cea[1] >= 3 && 4 <= cea[2] <= 127 && Tiles(cea, START, cea[2])
    ensures FindA(cea, tag) == FindB(cea, START, tag)
    ensures FirstWithTag(cea, Blocks(cea, START, cea[2]), tag, FindA(cea, tag))
  {
    TiledStopsAtEnd(cea, START, cea[2]);
    FindersAgreeIff(cea, tag);
    WalkIsFirst(cea, START, cea[2], tag);
  }

  // ---------------------------------------------------------------- staying inside the block

  /** The second walk comes to its end before it reads a byte behind the 128 of the block. */
  predicate EndsInside(cea: Cea, i: nat, end: nat, tag: int)
    requires end <= 255
    decreases end - i
  {
    i >= end || (i < BLOCK && ((i + Len(cea[i]) <= end && Tag(cea[i]) == tag) ||
                               EndsInside(cea, i + 1 + Len(cea[i]), end, tag)))
  }

  lemma {:induction false} InsideSame(cea: Cea, other: Cea, i: nat, end: nat, tag: int)
    requires end <= 255 && other[..BLOCK] == cea[..BLOCK] && EndsInside(cea, i, end, tag)
    ensures WalkB(other, i, end, tag) == WalkB(cea, i, end, tag)
    decreases end - i
  {
    if i < end {
      assert cea[..BLOCK][i] == cea[i] && other[..BLOCK][i] == other[i];
      if !(i + Len(cea[i]) <= end && Tag(cea[i]) == tag) {
        InsideSame(cea, other, i + 1 + Len(cea[i]), end, tag);
      }
    }
  }

  /** The same block with `b` in every byte behind it. */
  function Behind(cea: Cea, b: byte): Cea { cea[..BLOCK] + seq(160, i => b) }

  lemma {:induction false} OutsideDiffers(cea: Cea, i: nat, end: nat, tag: int)
    requires end <= 255 && 0 <= tag < 8 && !EndsInside(cea, i, end, tag)
    ensures WalkB(Behind(cea, tag * 32), i, end, tag) != -1
    ensures WalkB(Behind(cea, (tag + 1) % 8 * 32), i, end, tag) == -1
    decreases end - i
  {
    var x, y := Behind(cea, tag * 32), Behind(cea, (tag + 1) % 8 * 32);
    if i < BLOCK {
      assert x[i] == cea[i] && y[i] == cea[i];
      OutsideDiffers(cea, i + 1 + Len(cea[i]), end, tag);
    } else {
      OutsideNothing(y, i, end, tag);
    }
  }

  lemma {:induction false} OutsideNothing(y: Cea, i: nat, end: nat, tag: int)
    requires end <= 255 && i >= BLOCK && 0 <= tag < 8
    requires forall k :: BLOCK <= k < REACH ==> y[k] == (tag + 1) % 8 * 32
    ensures WalkB(y, i, end, tag) == -1
    decreases end - i
  {
    if i < end {
      OutsideNothing(y, i + 1 + Len(y[i]), end, tag);
    }
  }

  /**
   The second walker does not check the end offset against the block. Its answer is decided by the
   block alone exactly when it has no collection to walk or ends before it leaves the block.
   */
  lemma {:induction false} RawWalkerStaysIff(cea: Cea, start: nat, tag: int)
    requires 0 <= tag < 8
    ensures (forall other: Cea :: other[..BLOCK] == cea[..BLOCK] ==> FindB(other, start, tag) == FindB(cea, start, tag)) <==>
            cea[2] == 0 || cea[2] == 4 || EndsInside(cea, start, cea[2], tag)
    ensures cea[2] <= BLOCK ==> EndsInside(cea, start, cea[2], tag)
  {
    forall other: Cea | other[..BLOCK] == cea[..BLOCK] ensures other[2] == cea[2] {
      assert other[..BLOCK][2] == cea[..BLOCK][2];
    }
    if cea[2] != 0 && cea[2] != 4 && !EndsInside(cea, start, cea[2], tag) {
      OutsideDiffers(cea, start, cea[2], tag);
      var x, y := Behind(cea, tag * 32), Behind(cea, (tag + 1) % 8 * 32);
      assert x[..BLOCK] == cea[..BLOCK] && y[..BLOCK] == cea[..BLOCK];
      assert FindB(x, start, tag) != FindB(y, start, tag);
    } else {
      forall other: Cea | other[..BLOCK] == cea[..BLOCK] ensures FindB(other, start, tag) == FindB(cea, start, tag) {
        if EndsInside(cea, start, cea[2], tag) {
          InsideSame(cea, other, start, cea[2], tag);
        }
      }
    }
    if cea[2] <= BLOCK {
      ShortEndsInside(cea, start, cea[2], tag);
    }
  }

  lemma {:induction false} ShortEndsInside(cea: Cea, i: nat, end: nat, tag: int)
    requires end <= BLOCK
    ensures EndsInside(cea, i, end, tag)
    decreases end - i
  {
    if i < end {
      ShortEndsInside(cea, i + 1 + Len(cea[i]), end, tag);
    }
  }

  // ---------------------------------------------------------------- audio data blocks

  function Payload(cea: Cea, at: nat): seq<byte>
    requires at < REACH && at + Len(cea[at]) < REACH
  {
    cea[at + 1..at + 1 + Len(cea[at])]
  }

  /** A block's payload is the bytes behind its header, as many as the header says. */
  lemma {:induction false} PayloadMeans(cea: Cea, at: nat)
    requires at < REACH && at + Len(cea[at]) < REACH
    ensures |Payload(cea, at)| == cea[at] % 32 && forall j :: 0 <= j < cea[at] % 32 ==> Payload(cea, at)[j] == cea[at + 1 + j]
  {
  }

  /** The loop variables of `_sde_edid_extract_audio_data_blocks`. */
  datatype Audio = Audio(offset: nat, data: seq<byte>, count: nat)

  datatype Round = Ends(a: Audio) | Goes(a: Audio)

  /** One round of its do-while loop. A refused block is retried without moving on. */
  function AudioRound(cea: Cea, a: Audio): Round {
    var at := FindB(cea, a.offset, AUDIO);
    if at == -1 then Ends(a)
    else if Len(cea[at]) > MAX_ADB_SIZE || a.count >= MAX_ADB then
      if a.data == [] then Ends(a) else Goes(a)
    else Goes(Audio(at + 1 + Len(cea[at]), a.data + Payload(cea, at), a.count + 1))
  }

  /** The state after at most `n` rounds. */
  function Rounds(cea: Cea, a: Audio, n: nat): Round
    decreases n
  {
    if n == 0 then Goes(a)
    else
      var r := AudioRound(cea, a);
      if r.Ends? then r else Rounds(cea, r.a, n - 1)
  }

  const AudioStart := Audio(START, [], 0)

  /** The offsets of all audio blocks from `offset` on. */
  function AudioBlocks(cea: Cea, offset: nat): (bs: seq<nat>)
    ensures forall k :: 0 <= k < |bs| ==> bs[k] < 255 && bs[k] + Len(cea[bs[k]]) < REACH
    decreases 256 - offset
  {
    var at := FindB(cea, offset, AUDIO);
    if at == -1 then [] else [at] + AudioBlocks(cea, at + 1 + Len(cea[at]))
  }

  function Joined(cea: Cea, bs: seq<nat>): seq<byte>
    requires forall k :: 0 <= k < |bs| ==> bs[k] < 255 && bs[k] + Len(cea[bs[k]]) < REACH
  {
    if bs == [] then [] else Payload(cea, bs[0]) + Joined(cea, bs[1..])
  }

  /** How many of the blocks are taken: up to the first one that is too long, and `room` at most. */
  function Taken(cea: Cea, bs: seq<nat>, room: nat): (n: nat)
    requires forall k :: 0 <= k < |bs| ==> bs[k] < 255
    ensures n <= |bs| && n <= room
  {
    if bs == [] || room == 0 || Len(cea[bs[0]]) > MAX_ADB_SIZE then 0 else 1 + Taken(cea, bs[1..], room - 1)
  }

  /** The audio bytes gathered before the loop ends or gets stuck. */
  function Gathered(cea: Cea, a: Audio): seq<byte> {
    var bs := AudioBlocks(cea, a.offset);
    a.data + Joined(cea, bs[..Taken(cea, bs, if a.count <= MAX_ADB then MAX_ADB - a.count else 0)])
  }

  /** A block was refused although something had been gathered before. */
  predicate Stuck(cea: Cea, a: Audio) {
    var bs := AudioBlocks(cea, a.offset);
    Taken(cea, bs, if a.count <= MAX_ADB then MAX_ADB - a.count else 0) < |bs| && Gathered(cea, a) != []
  }

  lemma {:induction false} StuckForever(cea: Cea, a: Audio, n: nat)
    requires AudioRound(cea, a) == Goes(a)
    ensures Rounds(cea, a, n) == Goes(a)
  {
    if n > 0 {
      StuckForever(cea, a, n - 1);
    }
  }

  /** Follows the loop block by block until it ends or repeats itself. */
  lemma {:induction false} AudioOutcome(cea: Cea, a: Audio) returns (n: nat)
    requires a.count <= MAX_ADB
    ensures !Stuck(cea, a) ==> Rounds(cea, a, n).Ends? && Rounds(cea, a, n).a.data == Gathered(cea, a)
    ensures Stuck(cea, a) ==> forall m: nat :: Rounds(cea, a, m).Goes?
    decreases 256 - a.offset
  {
    hide Gathered, Stuck, FindB, Payload;
    var at := FindB(cea, a.offset, AUDIO);
    if at == -1 || Len(cea[at]) > MAX_ADB_SIZE || a.count >= MAX_ADB {
      n := 1;
      NothingTaken(cea, a);
      if at != -1 && a.data != [] {
        forall m: nat ensures Rounds(cea, a, m).Goes? {
          StuckForever(cea, a, m);
        }
      }
    } else {
      var b := AudioRound(cea, a).a;
      var n' := AudioOutcome(cea, b);
      n := n' + 1;
      OneMoreBlock(cea, a);
      forall m: nat | Stuck(cea, a) ensures Rounds(cea, a, m).Goes? {
        assert m > 0 ==> Rounds(cea, b, m - 1).Goes?;
      }
    }
  }

  /** Taking one block moves it from the blocks ahead to the bytes gathered. */
  lemma {:induction false} OneMoreBlock(cea: Cea, a: Audio)
    requires a.count < MAX_ADB && FindB(cea, a.offset, AUDIO) != -1
    requires Len(cea[FindB(cea, a.offset, AUDIO)]) <= MAX_ADB_SIZE
    ensures var b := AudioRound(cea, a).a; Gathered(cea, b) == Gathered(cea, a) && (Stuck(cea, b) <==> Stuck(cea, a))
  {
    hide FindB, Payload;
    var at := FindB(cea, a.offset, AUDIO);
    var b := AudioRound(cea, a).a;
    var bs, rest := AudioBlocks(cea, a.offset), AudioBlocks(cea, b.offset);
    assert bs == [at] + rest && bs[1..] == rest;
    var k := Taken(cea, rest, MAX_ADB - b.count);
    assert Taken(cea, bs, MAX_ADB - a.count) == k + 1;
    assert bs[..k + 1] == [at] + rest[..k] && bs[..k + 1][1..] == rest[..k];
    assert a.data + (Payload(cea, at) + Joined(cea, rest[..k])) == b.data + Joined(cea, rest[..k]);
  }

  /** All audio blocks fit: at most five of at most 30 bytes. */
  ghost predicate AudioFits(cea: Cea) {
    var bs := AudioBlocks(cea, START);
    |bs| <= MAX_ADB && forall k :: 0 <= k < |bs| ==> Len(cea[bs[k]]) <= MAX_ADB_SIZE
  }

  lemma {:induction false} TakenAll(cea: Cea, bs: seq<nat>, room: nat)
    requires forall k :: 0 <= k < |bs| ==> bs[k] < 255 && Len(cea[bs[k]]) <= MAX_ADB_SIZE
    requires |bs| <= room
    ensures Taken(cea, bs, room) == |bs|
  {
    if bs != [] {
      TakenAll(cea, bs[1..], room - 1);
    }
  }

  /**
   The extraction ends exactly when no block is refused after something was gathered. In
   particular, with at most five audio blocks of at most 30 bytes it ends, and the buffer is their
   payloads in order.
   */
  lemma {:induction false} AudioEndsIff(cea: Cea)
    ensures (exists n: nat :: Rounds(cea, AudioStart, n).Ends?) <==> !Stuck(cea, AudioStart)
    ensures forall n: nat :: Rounds(cea, AudioStart, n).Ends? ==> Rounds(cea, AudioStart, n).a.data == Gathered(cea, AudioStart)
    ensures AudioFits(cea) ==>
              !Stuck(cea, AudioStart) && Gathered(cea, AudioStart) == Joined(cea, AudioBlocks(cea, START))
  {
    var k := AudioOutcome(cea, AudioStart);
    forall n: nat | Rounds(cea, AudioStart, n).Ends?
      ensures Rounds(cea, AudioStart, n).a.data == Gathered(cea, AudioStart)
    {
      EndsOnce(cea, AudioStart, k, n);
    }
    if AudioFits(cea) {
      var bs := AudioBlocks(cea, START);
      TakenAll(cea, bs, MAX_ADB);
      assert bs[..|bs|] == bs;
    }
  }

  /** Those of the blocks that have the tag, in order. */
  ghost function WithTag(cea: Cea, blocks: seq<nat>, tag: int): seq<nat>
    requires forall k :: 0 <= k < |blocks| ==> blocks[k] < REACH
  {
    if blocks == [] then []
    else (if Tag(cea[blocks[0]]) == tag then [blocks[0]] else []) + WithTag(cea, blocks[1..], tag)
  }

  lemma {:induction false} BlocksInside(cea: Cea, i: nat, end: nat)
    requires end <= 255
    ensures forall k :: 0 <= k < |Blocks(cea, i, end)| ==> Blocks(cea, i, end)[k] < REACH
    decreases end - i
  {
    if i < end && i + Len(cea[i]) < end {
      BlocksInside(cea, i + Len(cea[i]) + 1, end);
    }
  }

  /** On a well-formed collection the extraction meets exactly the blocks with the audio tag. */
  lemma {:induction false} AudioBlocksTiled(cea: Cea, i: nat)
    requires START <= i && Tiles(cea, i, cea[2])
    ensures forall k :: 0 <= k < |Blocks(cea, i, cea[2])| ==> Blocks(cea, i, cea[2])[k] < REACH
    ensures AudioBlocks(cea, i) == WithTag(cea, Blocks(cea, i, cea[2]), AUDIO)
    decreases cea[2] - i
  {
    BlocksInside(cea, i, cea[2]);
    if i < cea[2] {
      var next := i + Len(cea[i]) + 1;
      AudioBlocksTiled(cea, next);
      assert Blocks(cea, i, cea[2])[1..] == Blocks(cea, next, cea[2]);
      if Tag(cea[i]) != AUDIO {
        assert FindB(cea, i, AUDIO) == FindB(cea, next, AUDIO);
      }
    }
  }

  /**
   On a well-formed collection with at most five audio blocks of at most 30 bytes, the loop ends and
   the gathered bytes are the payloads of exactly these blocks, in order.
   */
  lemma {:induction false} AudioOnTiled(cea: Cea)
    requires cea[2] >= 4 && Tiles(cea, START, cea[2]) && AudioFits(cea)
    ensures var bs := AudioBlocks(cea, START);
            && (forall k :: 0 <= k < |Blocks(cea, START, cea[2])| ==> Blocks(cea, START, cea[2])[k] < REACH)
            && bs == WithTag(cea, Blocks(cea, START, cea[2]), AUDIO)
            && exists n: nat :: Rounds(cea, AudioStart, n).Ends? && Rounds(cea, AudioStart, n).a.data == Joined(cea, bs)
  {
    hide AudioBlocks, Blocks, WithTag, Tiles, AudioFits, Joined, Stuck, Gathered, Rounds;
    AudioBlocksTiled(cea, START);
    AudioEndsIff(cea);
  }

  lemma {:induction false} EndsOnce(cea: Cea, a: Audio, m: nat, n: nat)
    requires Rounds(cea, a, m).Ends? && Rounds(cea, a, n).Ends?
    ensures Rounds(cea, a, m) == Rounds(cea, a, n)
    decreases m
  {
    if m > 0 && n > 0 && AudioRound(cea, a).Goes? {
      EndsOnce(cea, AudioRound(cea, a).a, m - 1, n - 1);
    }
  }

  /** A well-formed collection of a 3-byte and a 31-byte audio block. */
  function ExByte(i: nat): byte {
    if i == 1 then 3 else if i == 2 then 40 else if i == 4 then 35 else if i == 8 then 63 else 0
  }

  /** On well-formed input the loop can run forever: a long audio block after a short one. */
  lemma {:induction false} AudioMayHang()
    ensures exists cea: Cea :: cea[1] >= 3 && 4 <= cea[2] <= 127 && Tiles(cea, START, cea[2]) &&
              forall n: nat :: Rounds(cea, AudioStart, n).Goes?
  {
    var cea: Cea := seq(288, i requires 0 <= i => ExByte(i));
    assert cea[1] == 3 && cea[2] == 40 && cea[4] == 35 && cea[8] == 63;
    assert Tiles(cea, 40, 40) && Tiles(cea, 8, 40) && Tiles(cea, 4, 40);
    assert FindB(cea, 4, AUDIO) == 4 && FindB(cea, 8, AUDIO) == 8;
    var a := Audio(8, Payload(cea, 4), 1);
    assert AudioRound(cea, AudioStart) == Goes(a);
    assert AudioRound(cea, a) == Goes(a);
    forall n: nat ensures Rounds(cea, AudioStart, n).Goes? {
      if n > 0 {
        StuckForever(cea, a, n - 1);
      }
    }
  }

  // ---------------------------------------------------------------- the driver's loops

  method FindBlock(cea: Cea, tag: int) returns (r: int)
    ensures r == FindA(cea, tag)
  {
    if cea[1] < 3 {
      return -1;
    }
    var end := cea[2];
    if end == 0 {
      end := 127;
    }
    if end < 4 || end > 127 {
      return -1;
    }
    var i := START;
    while i < end && i + Len(cea[i]) < end
      invariant START <= i && WalkA(cea, i, end, tag) == WalkA(cea, START, end, tag)
      decreases end - i
    {
      if Tag(cea[i]) == tag {
        return i;
      }
      i := i + Len(cea[i]) + 1;
    }
    return -1;
  }

  method FindBlockRaw(cea: Cea, start: nat, tag: int) returns (r: int)
    ensures r == FindB(cea, start, tag)
  {
    var end := cea[2];
    if end == 0 || end == 4 {
      return -1;
    }
    var offset := start;
    while offset < end
      invariant start <= offset && WalkB(cea, offset, end, tag) == WalkB(cea, start, end, tag)
      decreases end - offset
    {
      var len := Len(cea[offset]);
      if offset + len <= end && Tag(cea[offset]) == tag {
        return offset;
      }
      offset := offset + 1 + len;
    }
    return -1;
  }

  class EdidCtrl {
    const audio: array<byte>
    var adbSize: nat

    constructor ()
      ensures fresh(audio) && audio.Length == MAX_ADB * MAX_ADB_SIZE && adbSize == 0
    {
      audio := new byte[MAX_ADB * MAX_ADB_SIZE](i => 0);
      adbSize := 0;
    }

    /**
     `_sde_edid_extract_audio_data_blocks`; the result is false where the driver would repeat the
     same round forever. The copies stay inside the buffer.
     */
    method ExtractAudio(cea: Cea) returns (ends: bool)
      requires audio.Length == MAX_ADB * MAX_ADB_SIZE
      modifies this, audio
      ensures ends == !Stuck(cea, AudioStart)
      ensures adbSize <= audio.Length && audio[..adbSize] == Gathered(cea, AudioStart)
      ensures forall i :: adbSize <= i < audio.Length ==> audio[i] == 0
    {
      hide Stuck, Gathered;
      var count, offset := 0, START;
      adbSize := 0;
      ClearBuffer();
      assert audio[..0] == [];
      while true
        invariant count <= MAX_ADB && adbSize <= count * MAX_ADB_SIZE
        invariant forall i :: adbSize <= i < audio.Length ==> audio[i] == 0
        invariant var a := Audio(offset, audio[..adbSize], count);
                  Gathered(cea, a) == Gathered(cea, AudioStart) && Stuck(cea, a) == Stuck(cea, AudioStart)
        decreases 256 - offset
      {
        ghost var a := Audio(offset, audio[..adbSize], count);
        var adb := FindBlockRaw(cea, offset, AUDIO);
        if adb == -1 || Len(cea[adb]) > MAX_ADB_SIZE || count >= MAX_ADB {
          NothingTaken(cea, a);
          return adb == -1 || adbSize == 0;
        }
        OneMoreBlock(cea, a);
        var len := Len(cea[adb]);
        CopyPayload(cea, adb);
        offset := adb + 1 + len;
        count := count + 1;
      }
    }

    method ClearBuffer()
      modifies audio
      ensures forall i :: 0 <= i < audio.Length ==> audio[i] == 0
    {
      for i := 0 to audio.Length
        invariant forall j :: 0 <= j < i ==> audio[j] == 0
      {
        audio[i] := 0;
      }
    }

    method CopyPayload(cea: Cea, adb: nat)
      requires adb < REACH && adb + Len(cea[adb]) < REACH && adbSize + Len(cea[adb]) <= audio.Length
      modifies this`adbSize, audio
      ensures adbSize == old(adbSize) + Len(cea[adb])
      ensures forall i :: old(adbSize) <= i < adbSize ==> audio[i] == cea[adb + 1 + i - old(adbSize)]
      ensures audio[..adbSize] == old(audio[..adbSize]) + Payload(cea, adb)
      ensures forall i :: adbSize <= i < audio.Length ==> audio[i] == old(audio[i])
    {
      var len := Len(cea[adb]);
      ghost var before := audio[..adbSize];
      for j := 0 to len
        invariant adbSize == old(adbSize)
        invariant audio[..adbSize + j] == before + cea[adb + 1..adb + 1 + j]
        invariant forall i :: adbSize + len <= i < audio.Length ==> audio[i] == old(audio[i])
      {
        audio[adbSize + j] := cea[adb + 1 + j];
        assert audio[..adbSize + j + 1] == audio[..adbSize + j] + [cea[adb + 1 + j]];
      }
      adbSize := adbSize + len;
    }
  }

  /** Nothing more is gathered when there is no further block or it is refused. */
  lemma {:induction false} NothingTaken(cea: Cea, a: Audio)
    requires a.count <= MAX_ADB
    requires var at := FindB(cea, a.offset, AUDIO);
             at == -1 || Len(cea[at]) > MAX_ADB_SIZE || a.count >= MAX_ADB
    ensures Gathered(cea, a) == a.data
    ensures Stuck(cea, a) <==> FindB(cea, a.offset, AUDIO) != -1 && a.data != []
  {
    var bs := AudioBlocks(cea, a.offset);
    assert bs[..0] == [];
  }
}
