/**
 * What one accepted create can do to the store: a table that reads back as it was
 * written, and takes the whole file with it at the next edit of another profile.
 */
module StoreLoss {
  import opened Wrappers
  import opened TomlValue
  import opened PyText
  import opened Config
  import opened FileReading
  import opened SplitRows
  import opened BrokenFiles
  import opened StoreSync
  import PF = ProfileFile
  import L = Lifecycle
  import M = Machine

  /** An accepted create of a clean table that holds one of Python's line breaks, on a well-formed file. */
  ghost predicate Fatal(s: M.System, stale: set<string>, create: M.Step) {
    && InStep(s.core, stale) && OnlyNewlines(s.core.file)
    && create.Create? && M.Reply(s, create) == L.Fine
    && IsBareKey(create.name) && CleanTable(create.table) && !WritableTable(create.table)
  }

  /** An accepted edit of a profile that was there before: a peak that is written, an update or a delete. */
  predicate EditsOther(s: M.System, create: M.Step, edit: M.Step) {
    create.Create?
    && match edit
       case RecordPeak(name, used, at, first, _) =>
         name != create.name && Grows(s.core, name, used) && first && Writable(Scalar(Str(at)))
       case Update(name, _, _) => name != create.name && M.Reply(s, edit) == L.Fine
       case Delete(name, _) => name != create.name && M.Reply(s, edit) == L.Fine
       case _ => false
  }

  /** The file after the create, and that another profile's block is whole in it while the new one is not. */
  lemma AfterCreate(s: M.System, stale: set<string>, create: M.Step, other: string)
    returns (rows: seq<string>, i: nat)
    requires Fatal(s, stale, create) && other in M.Next(s, create).core.profiles && other != create.name
    ensures M.Next(s, create).core.file == Terminated(rows) && Loose(rows) && PF.BlockSpan(rows, other).Some?
    ensures i < |rows| && !NoBreaks(rows[i]) && !OthersWhole(rows, other)
    ensures var (a, b) := PF.BlockSpan(rows, other).value; !(a < i < b)
  {
    EditStep(s, create);
    FatalFacts(s, stale, create);
    hide *;
    var c, name, table := s.core, create.name, create.table;
    var p := CreateIs(c, name, table, create.writable);
    var doc, loaded := InStepDoc(c, stale);
    rows, i := LosesOthers(c.file, name, table, other);
  }

  lemma FatalFacts(s: M.System, stale: set<string>, create: M.Step)
    requires Fatal(s, stale, create)
    ensures InStep(s.core, stale) && OnlyNewlines(s.core.file)
    ensures L.Create(s.core, create.name, create.table, create.writable).1 == L.Fine
    ensures IsBareKey(create.name) && CleanTable(create.table) && !WritableTable(create.table)
  {
    EditStep(s, create);
    hide InStep, OnlyNewlines, IsBareKey, CleanTable, WritableTable, L.Create, M.Next;
  }

  lemma UnreadableLoadsNothing(text: string)
    requires PF.Read(text) == None
    ensures Load(text) == None
  {
    hide PF.Read;
  }

  lemma PeakIsWritten(text: string, name: string, peak: int, at: string, second: bool, first': string, second': string)
    requires PF.SetText(text, name, L.PEAK_BYTES, Scalar(Int(peak))) == Ok(first')
    requires PF.SetText(first', name, L.PEAK_AT, Scalar(Str(at))) == Ok(second')
    ensures L.WritePeak(text, name, peak, at, true, second) == if second then second' else first'
  {
    hide PF.SetText;
  }

  lemma RecordLoses(c: L.Core, rows: seq<string>, i: nat, name: string, used: Option<int>, at: string, second: bool)
    requires c.file == Terminated(rows) && Loose(rows) && PF.BlockSpan(rows, name).Some? && i < |rows| && !NoBreaks(rows[i])
    requires var (a, b) := PF.BlockSpan(rows, name).value; !(a < i < b)
    requires Grows(c, name, used) && used.Some? && Writable(Scalar(Str(at)))
    ensures Load(L.RecordPeak(c, name, used, at, true, second).0.file) == None
  {
    hide *;
    PeakKeysAreBare();
    IntIsWritable(used.value);
    var v, w := Scalar(Int(used.value)), Scalar(Str(at));
    SetsLose(rows, name, L.PEAK_BYTES, v, L.PEAK_AT, w, i);
    var first := PF.SetText(c.file, name, L.PEAK_BYTES, v).value;
    PeakIsWritten(c.file, name, used.value, at, second, first, PF.SetText(first, name, L.PEAK_AT, w).value);
    RecordIs(c, name, used, at, true, second);
    UnreadableLoadsNothing(L.RecordPeak(c, name, used, at, true, second).0.file);
  }

  lemma UpdateLoses(c: L.Core, rows: seq<string>, name: string, table: PF.Dict, writable: bool)
    requires c.file == Terminated(rows) && Loose(rows) && PF.BlockSpan(rows, name).Some? && !OthersWhole(rows, name)
    requires L.Update(c, name, table, writable).1 == L.Fine
    ensures Load(L.Update(c, name, table, writable).0.file) == None
  {
    hide *;
    var p := StoreSync.UpdateIs(c, name, table, writable);
    Printable(c.file, name, table);
    OverwriteLoses(rows, name, table);
    UnreadableLoadsNothing(L.Update(c, name, table, writable).0.file);
  }

  lemma Printable(text: string, name: string, table: PF.Dict)
    requires PF.OverwriteText(text, name, table).Ok?
    ensures table.Valid() && PF.FormatTable(name, table).Some?
  {
    hide PF.BlockSpan, SplitLines, PF.FormatTable;
  }

  lemma DeleteLoses(c: L.Core, rows: seq<string>, name: string, writable: bool)
    requires c.file == Terminated(rows) && Loose(rows) && PF.BlockSpan(rows, name).Some? && !OthersWhole(rows, name)
    requires L.Delete(c, name, writable).1 == L.Fine
    ensures Load(L.Delete(c, name, writable).0.file) == None
  {
    hide *;
    DeleteIs(c, name, writable);
    RemoveLoses(rows, name);
    UnreadableLoadsNothing(L.Delete(c, name, writable).0.file);
  }

  lemma OtherIsHeld(s: M.System, create: M.Step, edit: M.Step)
    requires EditsOther(s, create, edit)
    ensures Edits(edit) && edit.name in s.core.profiles && edit.name != create.name
    ensures edit.RecordPeak? ==>
      Grows(s.core, edit.name, edit.used) && edit.used.Some? && edit.first && Writable(Scalar(Str(edit.at)))
    ensures !edit.RecordPeak? ==> (edit.Update? || edit.Delete?) && M.Reply(s, edit) == L.Fine
  {
    EditStep(s, edit);
    if edit.Update? {
      var p := StoreSync.UpdateIs(s.core, edit.name, edit.table, edit.writable);
    } else if edit.Delete? {
      DeleteIs(s.core, edit.name, edit.writable);
    }
    hide M.Reply, Writable, L.Update, L.Delete;
  }

  /**
   * One accepted create of such a table leaves memory and file in step, and
   * then any peak written for another profile, and any accepted update or delete
   * of one, leaves a file that a restarted server cannot load at all.
   */
  lemma CreateThenEditLosesFile(s: M.System, stale: set<string>, create: M.Step, edit: M.Step)
    requires Fatal(s, stale, create) && EditsOther(M.Next(s, create), create, edit)
    ensures InStep(M.Next(s, create).core, stale - {create.name})
    ensures Load(M.Next(M.Next(s, create), edit).core.file) == None
  {
    EditStep(s, create);
    FatalFacts(s, stale, create);
    var t := M.Next(s, create);
    OtherIsHeld(t, create, edit);
    EditStep(t, edit);
    hide *;
    CreateInStep(s.core, stale, create.name, create.table, create.writable);
    var rows, i := AfterCreate(s, stale, create, edit.name);
    match edit {
      case RecordPeak(name, used, at, first, second) => RecordLoses(t.core, rows, i, name, used, at, second);
      case Update(name, table, writable) => UpdateLoses(t.core, rows, name, table, writable);
      case Delete(name, writable) => DeleteLoses(t.core, rows, name, writable);
    }
  }
}
