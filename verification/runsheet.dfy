/**
 * The run sheet: each block's status against the current time, the "now" and
 * "next" blocks, and nudging a block by a number of minutes.
 */
module Runsheet {
  import opened Wrappers

  /** A block as the run sheet loads it; times in minutes. */
  datatype RunBlock = RunBlock(id: string, title: string, start: int, end: int, location: string, notes: string)

  datatype Status = Completed | Current | Upcoming

  /** `getBlockStatus`: finished blocks are completed; otherwise current while `now` lies within the block. */
  function StatusAt(b: RunBlock, now: int): (s: Status)
    ensures s == Completed <==> b.end < now
    ensures s == Current <==> b.start <= now <= b.end
    ensures s == Upcoming <==> now < b.start && now <= b.end
  {
    if b.end < now then Completed
    else if b.start <= now && now <= b.end then Current
    else Upcoming
  }

  /** Moving a block and the clock by the same amount leaves its status unchanged. */
  lemma StatusShiftInvariant(b: RunBlock, now: int, m: int)
    ensures StatusAt(Moved(b, m), now + m) == StatusAt(b, now)
  {
  }

  /** A block that starts no later than it ends is upcoming, current and completed in that order as time passes. */
  lemma StatusMonotone(b: RunBlock, t1: int, t2: int)
    requires b.start <= b.end && t1 <= t2
    ensures StatusAt(b, t1) == Completed ==> StatusAt(b, t2) == Completed
    ensures StatusAt(b, t1) == Current ==> StatusAt(b, t2) != Upcoming
  {
  }

  /** `blocks.find(b => getBlockStatus(b) === s)`, as a position: the first block with status `s`. */
  function FirstWithStatus(blocks: seq<RunBlock>, now: int, s: Status): (r: Option<nat>)
    ensures r.Some? ==> r.value < |blocks| && StatusAt(blocks[r.value], now) == s
    ensures r.Some? ==> forall i :: 0 <= i < r.value ==> StatusAt(blocks[i], now) != s
    ensures r.None? <==> forall i :: 0 <= i < |blocks| ==> StatusAt(blocks[i], now) != s
  {
    if |blocks| == 0 then None
    else if StatusAt(blocks[0], now) == s then Some(0)
    else match FirstWithStatus(blocks[1..], now, s)
      case None => None
      case Some(i) => Some(i + 1)
  }

  /** The "now" card: the first block whose time span contains `now`, if any. */
  function CurrentBlock(blocks: seq<RunBlock>, now: int): (r: Option<nat>)
    ensures r.Some? ==> r.value < |blocks| && blocks[r.value].start <= now <= blocks[r.value].end
    ensures r.Some? ==> forall i :: 0 <= i < r.value ==> !(blocks[i].start <= now <= blocks[i].end)
    ensures r.None? <==> forall i :: 0 <= i < |blocks| ==> !(blocks[i].start <= now <= blocks[i].end)
  {
    FirstWithStatus(blocks, now, Current)
  }

  /** The "next" card: the first block that has neither begun nor ended, if any. */
  function NextBlock(blocks: seq<RunBlock>, now: int): (r: Option<nat>)
    ensures r.Some? ==> r.value < |blocks| && now < blocks[r.value].start && now <= blocks[r.value].end
    ensures r.Some? ==> forall i :: 0 <= i < r.value ==> !(now < blocks[i].start && now <= blocks[i].end)
    ensures r.None? <==> forall i :: 0 <= i < |blocks| ==> !(now < blocks[i].start && now <= blocks[i].end)
  {
    FirstWithStatus(blocks, now, Upcoming)
  }

  /** The "now" and "next" cards never show the same block; the current block contains `now`. */
  lemma NowAndNextDiffer(blocks: seq<RunBlock>, now: int)
    ensures CurrentBlock(blocks, now).Some? && NextBlock(blocks, now).Some? ==>
              CurrentBlock(blocks, now).value != NextBlock(blocks, now).value
    ensures CurrentBlock(blocks, now).Some? ==>
              blocks[CurrentBlock(blocks, now).value].start <= now <= blocks[CurrentBlock(blocks, now).value].end
  {
  }

  function Moved(b: RunBlock, m: int): RunBlock {
    b.(start := b.start + m, end := b.end + m)
  }

  predicate HasId(blocks: seq<RunBlock>, id: string) {
    exists i :: 0 <= i < |blocks| && blocks[i].id == id
  }

  /**
   * `shiftBlock`: the store moves the block with `id` by `m` minutes and the
   * sheet is reloaded; an unknown id changes nothing.
   */
  function Shift(blocks: seq<RunBlock>, id: string, m: int): (r: seq<RunBlock>)
    ensures |r| == |blocks|
    ensures !HasId(blocks, id) ==> r == blocks
    ensures forall i :: 0 <= i < |r| && blocks[i].id != id ==> r[i] == blocks[i]
    ensures forall i :: 0 <= i < |r| && blocks[i].id == id ==>
              r[i].start == blocks[i].start + m && r[i].end == blocks[i].end + m
              && r[i] == blocks[i].(start := r[i].start, end := r[i].end)
    ensures forall i :: 0 <= i < |r| ==> r[i].end - r[i].start == blocks[i].end - blocks[i].start
  {
    if !HasId(blocks, id) then blocks
    else seq(|blocks|, i requires 0 <= i < |blocks| =>
               if blocks[i].id == id then Moved(blocks[i], m) else blocks[i])
  }

  /** "+15" followed by "-15" restores the sheet. */
  lemma ShiftBackRestores(blocks: seq<RunBlock>, id: string, m: int)
    ensures Shift(Shift(blocks, id, m), id, -m) == blocks
  {
    var once := Shift(blocks, id, m);
    var twice := Shift(once, id, -m);
    assert forall i :: 0 <= i < |blocks| ==> once[i].id == blocks[i].id;
    if HasId(blocks, id) {
      var k :| 0 <= k < |blocks| && blocks[k].id == id;
      assert once[k].id == id;
    }
    assert forall i :: 0 <= i < |blocks| ==> twice[i] == blocks[i];
  }

  /** Two shifts of the same block add up. */
  lemma ShiftsCompose(blocks: seq<RunBlock>, id: string, m: int, n: int)
    ensures Shift(Shift(blocks, id, m), id, n) == Shift(blocks, id, m + n)
  {
    var once := Shift(blocks, id, m);
    assert forall i :: 0 <= i < |blocks| ==> once[i].id == blocks[i].id;
    if HasId(blocks, id) {
      var k :| 0 <= k < |blocks| && blocks[k].id == id;
      assert once[k].id == id;
    }
  }
}
