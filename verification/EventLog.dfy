/**
 The event log ring and its dump cursors (msm/sde_dbg_evtlog.c): the ring refines the sequence of
 all logged events, and a dump prints exactly the not yet dumped events among the last 256.
 Cursors are u32 fields; the claims are for fewer than 2^32 logged events.
 */
module EventLog {

  const PRINT_ENTRY := 256
  const ENTRY := 2048
  const MAX_DATA := 15
  const DATA_LIMITER := 0xC0DE_BEEF
  const U32 := 0x1_0000_0000

  datatype Entry = Entry(time: int, name: string, line: int, pid: int, data: seq<int>)

  datatype Line = Line(index: nat, entry: Entry)

  // ---------------------------------------------------------------- dump cursors

  datatype Cursors = Cursors(first: nat, lastDump: nat, next: nat)

  datatype Range = Range(c: Cursors, some: bool)

  function Capacity(full: bool): nat { if full then ENTRY else PRINT_ENTRY }

  function Sub32(a: nat, b: nat): nat { (a - b) % U32 }

  /** `_sde_evtlog_dump_calc_range`, in u32 arithmetic. */
  function CalcRange(c: Cursors, last: nat, update: bool, full: bool): Range {
    var first0 := c.next;
    var dump0 := if update then last else c.lastDump;
    if dump0 == first0 then Range(Cursors(first0, dump0, c.next), false)
    else
      var first1 := if dump0 < first0 then first0 % ENTRY else first0;
      var dump1 := if dump0 < first0 && dump0 < first1 then (dump0 + ENTRY) % U32 else dump0;
      var first2 := if Sub32(dump1, first1) > Capacity(full) then Sub32(dump1, Capacity(full)) else first1;
      Range(Cursors(first2, dump1, (first2 + 1) % U32), true)
  }

  function Max(a: int, b: int): int { if a < b then b else a }

  /** Cursors never overtake the log, and what the dumps printed is consistent with them. */
  ghost predicate CursorsOk(c: Cursors, last: nat, printed: seq<nat>) {
    && c.next <= c.lastDump <= last < U32
    && (forall i, j :: 0 <= i < j < |printed| ==> printed[i] < printed[j])
    && (forall i :: 0 <= i < |printed| ==> printed[i] < c.next)
    && (forall k :: Max(0, c.lastDump - PRINT_ENTRY) <= k < c.next ==> k in printed)
  }

  /** Without wrap-around the range starts at the first event not dumped that still fits. */
  lemma {:induction false} RangeStart(c: Cursors, last: nat, printed: seq<nat>, update: bool, full: bool)
    requires CursorsOk(c, last, printed)
    ensures var r := CalcRange(c, last, update, full); var dump := if update then last else c.lastDump;
            && r.some == (c.next < dump) && r.c.lastDump == dump
            && (r.some ==> r.c.first == Max(c.next, dump - Capacity(full)) && r.c.next == r.c.first + 1 <= dump)
            && (!r.some ==> r.c.next == c.next)
  {
    var dump := if update then last else c.lastDump;
    assert c.next <= dump < U32;
    hide CursorsOk, Sub32;
    SubExact(dump, c.next);
    if dump - c.next > Capacity(full) {
      SubExact(dump, Capacity(full));
    }
  }

  lemma {:induction false} SubExact(a: nat, b: nat)
    requires b <= a < U32
    ensures Sub32(a, b) == a - b
  {
  }

  lemma {:induction false} RangeKeeps(c: Cursors, last: nat, printed: seq<nat>, update: bool, full: bool)
    requires CursorsOk(c, last, printed)
    ensures var r := CalcRange(c, last, update, full);
            CursorsOk(r.c, last, if r.some then printed + [r.c.first] else printed)
  {
    RangeStart(c, last, printed, update, full);
    hide CalcRange;
    var r := CalcRange(c, last, update, full);
    if r.some {
      var p := printed + [r.c.first];
      forall k | Max(0, r.c.lastDump - PRINT_ENTRY) <= k < r.c.next ensures k in p {
        if k == r.c.first {
          assert p[|printed|] == k;
        } else {
          assert k in printed;
        }
      }
    }
  }

  /** The events a dump is about to print are exactly those of the last 256 that no dump has printed. */
  lemma {:induction false} NotYetDumped(c: Cursors, last: nat, printed: seq<nat>, k: nat)
    requires CursorsOk(c, last, printed)
    ensures Max(c.next, last - PRINT_ENTRY) <= k < last <==> last - PRINT_ENTRY <= k < last && k !in printed
  {
  }

  // ---------------------------------------------------------------- the ring

  /** Slot `k % 2048` holds event `k`, for the last 2048 events. */
  ghost predicate Holds(ring: seq<Entry>, history: seq<Entry>) {
    && |ring| == ENTRY
    && forall k :: 0 <= k < |history| && |history| - ENTRY <= k ==> ring[k % ENTRY] == history[k]
  }

  lemma {:induction false} HoldsAfterLog(ring: seq<Entry>, history: seq<Entry>, e: Entry)
    requires Holds(ring, history)
    ensures Holds(ring[|history| % ENTRY := e], history + [e])
  {
    var n := |history|;
    forall k | 0 <= k < n + 1 && n + 1 - ENTRY <= k
      ensures ring[n % ENTRY := e][k % ENTRY] == (history + [e])[k]
    {
      if k < n {
        assert k % ENTRY != n % ENTRY by { SlotsDiffer(k, n); }
      }
    }
  }

  lemma {:induction false} SlotsDiffer(k: nat, n: nat)
    requires k < n < k + ENTRY
    ensures k % ENTRY != n % ENTRY
  {
  }

  ghost function Total(arrivals: seq<seq<Entry>>): nat {
    if arrivals == [] then 0 else |arrivals[0]| + Total(arrivals[1..])
  }

  class EvtLog {
    const logs: array<Entry>
    var first: nat
    var last: nat
    var lastDump: nat
    var curr: nat
    var next: nat
    ghost var history: seq<Entry>   // every logged event, oldest first
    ghost var printed: seq<nat>     // event numbers printed by dumps, in order

    ghost predicate Valid()
      reads this, logs
    {
      && Holds(logs[..], history)
      && last == |history| && curr == last % ENTRY
      && CursorsOk(Cursors(first, lastDump, next), last, printed)
    }

    constructor (blank: Entry)
      ensures Valid() && fresh(logs) && history == [] && printed == []
    {
      logs := new Entry[ENTRY](i => blank);
      first, last, lastDump, curr, next := 0, 0, 0, 0, 0;
      history, printed := [], [];
    }

    /** Writes the current slot and advances the cursors, under the spin lock. */
    method Store(e: Entry)
      requires Valid() && |history| + 1 < U32
      modifies this`curr, this`last, this`history, logs
      ensures Valid() && history == old(history) + [e]
    {
      hide CursorsOk;
      ghost var ring, c := logs[..], Cursors(first, lastDump, next);
      HoldsAfterLog(ring, history, e);
      LongerLog(c, last, printed);
      logs[curr] := e;
      assert logs[..] == ring[last % ENTRY := e];
      hide Holds;
      curr := (curr + 1) % ENTRY;
      last := (last + 1) % U32;
      history := history + [e];
    }

    /** `sde_evtlog_log` for an event that is enabled and not filtered. */
    method Log(time: int, name: string, line: int, pid: int, args: seq<int>)
      requires Valid() && |history| + 1 < U32 && DATA_LIMITER in args
      modifies this`curr, this`last, this`history, logs
      ensures Valid()
      ensures exists data :: DataOf(args, data) && history == old(history) + [Entry(time, name, line, pid, data)]
    {
      var data := CopyData(args);
      Store(Entry(time, name, line, pid, data));
    }

    /** Events logged by other threads between two lines of a dump. */
    method LogAll(es: seq<Entry>)
      requires Valid() && |history| + |es| < U32
      modifies this`curr, this`last, this`history, logs
      ensures Valid() && history == old(history) + es
    {
      hide Holds, CursorsOk;
      ghost var h := history;
      for i := 0 to |es|
        invariant Valid() && history == h + es[..i]
      {
        Store(es[i]);
        assert es[..i + 1] == es[..i] + [es[i]];
      }
      assert es[..|es|] == es;
    }

    /** `sde_evtlog_dump_to_buffer`: prints one event, or nothing when there is none to print. */
    method DumpLine(update: bool, full: bool) returns (lines: seq<Line>)
      requires Valid()
      modifies this`first, this`lastDump, this`next, this`printed
      ensures Valid() && next <= lastDump <= last == |history|
      ensures lastDump == if update then last else old(lastDump)
      ensures lines == [] <==> old(next) == lastDump
      ensures lines == [] ==> next == old(next) && printed == old(printed)
      ensures lines != [] ==>
                && first == Max(old(next), lastDump - (if full then 2048 else 256)) && next == first + 1
                && printed == old(printed) + [first]
                && lines == [Line(first, logs[first % ENTRY])]
                && (last <= first + ENTRY ==> lines[0].entry == history[first])
    {
      ghost var c0 := Cursors(first, lastDump, next);
      RangeStart(c0, last, printed, update, full);
      RangeKeeps(c0, last, printed, update, full);
      var r := CalcRange(Cursors(first, lastDump, next), last, update, full);
      hide CalcRange;
      first, lastDump, next := r.c.first, r.c.lastDump, r.c.next;
      lines := [];
      if r.some {
        lines := [Line(first, logs[first % ENTRY])];
        printed := printed + [first];
        assert logs[..][first % ENTRY] == logs[first % ENTRY];
      }
    }

    /**
     `sde_evtlog_dump_all`, with `arrivals[i]` logged by other threads after the i-th printed line.
     It ends after printing the events from the first one not dumped, at most 256 back, up to the
     one logged last when the dump began; every printed line is that event as long as no printed
     slot was reused meanwhile.
     */
    method DumpAll(arrivals: seq<seq<Entry>>) returns (lines: seq<Line>)
      requires Valid() && |history| + Total(arrivals) + 1 < U32
      modifies this, logs
      ensures Valid() && old(history) <= history && |history| <= |old(history)| + Total(arrivals)
      ensures IndexedFrom(lines, Max(old(next), |old(history)| - PRINT_ENTRY), |old(history)|)
      ensures |history| <= Max(old(next), |old(history)| - PRINT_ENTRY) + ENTRY ==> Shows(lines, old(history))
      ensures forall k :: 0 <= k && |old(history)| - PRINT_ENTRY <= k < |old(history)| ==>
                (k in Indices(lines) <==> k !in old(printed))
      ensures forall k :: k in Indices(lines) ==> |old(history)| - PRINT_ENTRY <= k < |old(history)|
      ensures printed == old(printed) + Indices(lines) && next == |old(history)|
    {
      hide Holds, CursorsOk, Total;
      forall k: nat ensures Max(next, last - PRINT_ENTRY) <= k < last <==> last - PRINT_ENTRY <= k < last && k !in printed {
        NotYetDumped(Cursors(first, lastDump, next), last, printed, k);
      }
      ghost var hist0, printed0, n0 := history, printed, |history|;
      ghost var lo := Max(next, n0 - PRINT_ENTRY);
      assert next <= n0 by { NextBehind(Cursors(first, lastDump, next), last, printed); }
      lines := [];
      var pending := arrivals;
      var update := true;
      while true
        invariant Valid() && hist0 <= history && |history| + Total(pending) <= n0 + Total(arrivals)
        invariant update ==> history == hist0 && lo == Max(next, n0 - PRINT_ENTRY) && lines == []
        invariant !update ==> lastDump == n0 && next == lo + |lines|
        invariant |lines| <= n0 - lo && IndexedFrom(lines, lo, lo + |lines|)
        invariant |history| <= lo + ENTRY ==> Shows(lines, hist0)
        invariant printed == printed0 + Indices(lines)
        decreases update, n0 - |lines|
      {
        var line := DumpLine(update, false);
        if line == [] {
          break;
        }
        IndicesAppend(lines, line[0]);
        lines := lines + line;
        update := false;
        if pending != [] {
          assert Total(pending) == |pending[0]| + Total(pending[1..]) by { TotalStep(pending); }
          LogAll(pending[0]);
          pending := pending[1..];
        }
      }
      IndexedMembers(lines, lo, n0);
    }
  }

  lemma {:induction false} IndexedMembers(lines: seq<Line>, lo: int, hi: int)
    requires IndexedFrom(lines, lo, hi)
    ensures forall k :: k in Indices(lines) <==> lo <= k < hi
  {
    forall k ensures k in Indices(lines) <==> lo <= k < hi {
      if lo <= k < hi {
        assert Indices(lines)[k - lo] == k;
      }
    }
  }

  lemma {:induction false} LongerLog(c: Cursors, last: nat, printed: seq<nat>)
    requires CursorsOk(c, last, printed) && last + 1 < U32
    ensures CursorsOk(c, last + 1, printed)
  {
  }

  lemma {:induction false} NextBehind(c: Cursors, last: nat, printed: seq<nat>)
    requires CursorsOk(c, last, printed)
    ensures c.next <= last
  {
  }

  lemma {:induction false} TotalStep(arrivals: seq<seq<Entry>>)
    requires arrivals != []
    ensures Total(arrivals) == |arrivals[0]| + Total(arrivals[1..])
  {
  }

  /** The lines are numbered `lo`, `lo + 1`, .. `hi - 1`. */
  ghost predicate IndexedFrom(lines: seq<Line>, lo: int, hi: int) {
    |lines| == hi - lo && forall i :: 0 <= i < |lines| ==> lines[i].index == lo + i
  }

  /** Every line shows the event of its number. */
  ghost predicate Shows(lines: seq<Line>, history: seq<Entry>) {
    forall i :: 0 <= i < |lines| ==> lines[i].index < |history| && lines[i].entry == history[lines[i].index]
  }

  ghost function Indices(lines: seq<Line>): seq<nat> {
    seq(|lines|, i requires 0 <= i < |lines| => lines[i].index)
  }

  lemma {:induction false} IndicesAppend(lines: seq<Line>, l: Line)
    ensures Indices(lines + [l]) == Indices(lines) + [l.index]
  {
  }

  /** The arguments before the limiter, at most 15 of them. */
  ghost predicate DataOf(args: seq<int>, data: seq<int>) {
    && |data| <= MAX_DATA && data <= args && DATA_LIMITER !in data
    && (|data| == MAX_DATA || (|data| < |args| && args[|data|] == DATA_LIMITER))
  }

  method CopyData(args: seq<int>) returns (data: seq<int>)
    requires DATA_LIMITER in args
    ensures DataOf(args, data)
  {
    data := [];
    var i := 0;
    while i < MAX_DATA
      invariant 0 <= i <= MAX_DATA && i < |args| && data == args[..i] && DATA_LIMITER !in data
    {
      if args[i] == DATA_LIMITER {
        return;
      }
      data := data + [args[i]];
      assert DATA_LIMITER in args[i + 1..];
      i := i + 1;
    }
  }
}
