/**
 * How much a header can make the reader do: every pass of its loops is paid for
 * by bytes of the file, whatever counts the file claims.
 */
module GgufWork {
  import opened Bytes
  import opened Gguf
  import opened GgufEncoding

  // ---------------------------------------------------------------- work bound

  /** How many of `count` entries are scanned before the first failure (all, if there is none). */
  function EntriesDone(buf: seq<byte>, pos: nat, count: nat, s: Scan): (n: nat)
    ensures n <= count
    ensures n == count <==> ScanEntries(buf, pos, count, s).Got?
    decreases count
  {
    if count == 0 then 0 else
    match ScanEntry(buf, pos, s)
    case Fail => 0
    case Got(t, p) => 1 + EntriesDone(buf, p, count - 1, t)
  }

  function TextsDone(buf: seq<byte>, pos: nat, count: nat): (n: nat)
    ensures n <= count
    ensures n == count <==> SkipTexts(buf, pos, count).Got?
    decreases count
  {
    if count == 0 then 0 else
    match ReadText(buf, pos)
    case Fail => 0
    case Got(_, p) => 1 + TextsDone(buf, p, count - 1)
  }

  /** An entry needs a key length, a type tag and at least one byte of value. */
  lemma EntryCost(buf: seq<byte>, pos: nat, s: Scan)
    requires ScanEntry(buf, pos, s).Got?
    ensures pos + 12 <= |buf| && pos + 13 <= ScanEntry(buf, pos, s).pos
  {
    var p := ReadText(buf, pos).pos;
    var tag := ReadBits(buf, p, 4).value;
    ValueCost(buf, p + 4, tag);
  }

  lemma ValueCost(buf: seq<byte>, pos: nat, tag: nat)
    ensures SkipValue(buf, pos, tag).Got? ==> pos < SkipValue(buf, pos, tag).pos
    ensures ReadValue(buf, pos, tag).Got? ==> pos < ReadValue(buf, pos, tag).pos
  {
    SkipAgreesWithRead(buf, pos, tag);
    if tag == ARRAY && SkipArray(buf, pos).Got? {
      var elem, count := ReadBits(buf, pos, 4).value, ReadBits(buf, pos + 4, 8).value;
      if elem == STRING {
        TextsAdvance(buf, pos + 12, count);
      }
    }
  }

  lemma {:induction false} TextsAdvance(buf: seq<byte>, pos: nat, count: nat)
    requires SkipTexts(buf, pos, count).Got?
    ensures pos <= SkipTexts(buf, pos, count).pos
    decreases count
  {
    if count > 0 {
      TextsAdvance(buf, ReadText(buf, pos).pos, count - 1);
    }
  }

  lemma {:induction false} EntriesDoneBound(buf: seq<byte>, pos: nat, count: nat, s: Scan)
    ensures var n := EntriesDone(buf, pos, count, s); n >= 1 ==> pos + 13 * n <= |buf| + 1
    decreases count
  {
    hide ScanEntry;
    if EntriesDone(buf, pos, count, s) >= 1 {
      EntryCost(buf, pos, s);
      var next := ScanEntry(buf, pos, s);
      EntriesDoneBound(buf, next.pos, count - 1, next.value);
    }
  }

  /** The strings of an array are bounded by the buffer, whatever count the file claims. */
  lemma {:induction false} TextsDoneBound(buf: seq<byte>, pos: nat, count: nat)
    ensures var n := TextsDone(buf, pos, count); n >= 1 ==> pos + 8 * n <= |buf|
    decreases count
  {
    if TextsDone(buf, pos, count) >= 1 {
      TextsDoneBound(buf, ReadText(buf, pos).pos, count - 1);
    }
  }

  /** The entry count that a file's header claims. */
  function ClaimedEntries(buf: seq<byte>): nat
    requires |buf| >= 24
  {
    FromLittleEndian(buf[16..24])
  }

  /** Whether or not the scan succeeds, the entries it gets through are paid for by the file's bytes. */
  lemma WorkBound(buf: seq<byte>)
    requires |buf| >= 24 && buf[..4] == MAGIC
    ensures var n := EntriesDone(buf, 24, ClaimedEntries(buf), NEW_SCAN);
      && (n >= 1 ==> 13 * n <= |buf| - 23)
      && (ParseScan(buf).Got? <==> n == ClaimedEntries(buf))
  {
    EntriesDoneBound(buf, 24, ClaimedEntries(buf), NEW_SCAN);
  }

  // ---------------------------------------------------------------- entries and strings together

  /** The strings that the loop over an array's items reads, to the end or to the first failure. */
  function ValueTexts(buf: seq<byte>, pos: nat, tag: nat): nat {
    if tag != ARRAY then 0 else
    match (ReadBits(buf, pos, 4), ReadBits(buf, pos + 4, 8))
    case (Got(elem, _), Got(count, p)) => if elem == STRING then TextsDone(buf, p, count) else 0
    case _ => 0
  }

  function EntryTexts(buf: seq<byte>, pos: nat): nat {
    match ReadText(buf, pos)
    case Fail => 0
    case Got(_, p) =>
      match ReadBits(buf, p, 4)
      case Fail => 0
      case Got(tag, q) => ValueTexts(buf, q, tag)
  }

  /** All passes of all loops of a scan: entries that were scanned, and strings in their arrays. */
  function TotalWork(buf: seq<byte>, pos: nat, count: nat, s: Scan): (n: nat)
    ensures n >= EntriesDone(buf, pos, count, s)
    decreases count
  {
    if count == 0 then 0
    else
      EntryTexts(buf, pos) +
      match ScanEntry(buf, pos, s)
      case Fail => 0
      case Got(t, p) => 1 + TotalWork(buf, p, count - 1, t)
  }

  lemma {:induction false} TextsTakeRoom(buf: seq<byte>, pos: nat, count: nat)
    requires SkipTexts(buf, pos, count).Got?
    ensures TextsDone(buf, pos, count) == count && pos + 8 * count <= SkipTexts(buf, pos, count).pos
    decreases count
  {
    if count > 0 {
      TextsTakeRoom(buf, ReadText(buf, pos).pos, count - 1);
    }
  }

  lemma ValueTakesRoom(buf: seq<byte>, pos: nat, tag: nat)
    ensures var k := ValueTexts(buf, pos, tag);
      && (k >= 1 ==> pos + 12 + 8 * k <= |buf|)
      && (k >= 1 && SkipValue(buf, pos, tag).Got? ==> pos + 12 + 8 * k <= SkipValue(buf, pos, tag).pos)
      && (k >= 1 && ReadValue(buf, pos, tag).Got? ==> pos + 12 + 8 * k <= ReadValue(buf, pos, tag).pos)
  {
    hide SkipTexts, TextsDone, FromLittleEndian;
    SkipAgreesWithRead(buf, pos, tag);
    if tag == ARRAY && ReadBits(buf, pos, 4).Got? && ReadBits(buf, pos + 4, 8).Got? {
      var elem, count := ReadBits(buf, pos, 4).value, ReadBits(buf, pos + 4, 8).value;
      if elem == STRING {
        TextsDoneBound(buf, pos + 12, count);
        if SkipTexts(buf, pos + 12, count).Got? {
          TextsTakeRoom(buf, pos + 12, count);
        }
      }
    }
  }

  lemma EntryTakesRoom(buf: seq<byte>, pos: nat, s: Scan)
    ensures var k := EntryTexts(buf, pos);
      && (k >= 1 ==> pos + 24 + 8 * k <= |buf|)
      && (k >= 1 && ScanEntry(buf, pos, s).Got? ==> pos + 24 + 8 * k <= ScanEntry(buf, pos, s).pos)
  {
    hide ValueTexts, ReadValue, SkipValue, FromLittleEndian, Slice;
    if ReadText(buf, pos).Got? {
      var p := ReadText(buf, pos).pos;
      if ReadBits(buf, p, 4).Got? {
        ValueTakesRoom(buf, p + 4, ReadBits(buf, p, 4).value);
      }
    }
  }

  lemma {:induction false} WorkTakesRoom(buf: seq<byte>, pos: nat, count: nat, s: Scan)
    ensures var n := TotalWork(buf, pos, count, s); n >= 1 ==> pos + 8 * n <= |buf|
    decreases count
  {
    hide ScanEntry, EntryTexts;
    if count > 0 {
      EntryTakesRoom(buf, pos, s);
      if ScanEntry(buf, pos, s).Got? {
        EntryCost(buf, pos, s);
        var next := ScanEntry(buf, pos, s);
        WorkTakesRoom(buf, next.pos, count - 1, next.value);
      }
    }
  }

  /**
   * Entries and strings together, over a whole parse that succeeds or fails:
   * eight bytes of the file behind its header for every pass of a loop.
   */
  lemma TotalWorkBound(buf: seq<byte>)
    requires |buf| >= 24 && buf[..4] == MAGIC
    ensures 8 * TotalWork(buf, 24, ClaimedEntries(buf), NEW_SCAN) <= |buf| - 24
  {
    WorkTakesRoom(buf, 24, ClaimedEntries(buf), NEW_SCAN);
    hide TotalWork;
  }
}
