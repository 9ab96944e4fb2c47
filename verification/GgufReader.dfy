/** The reader as the program runs it: a cursor whose position moves, and the scanning loop. */
module GgufReader {
  import opened Bytes
  import opened Wrappers
  import opened Gguf

  class Cursor {
    const buf: seq<byte>
    var pos: nat

    constructor (buf: seq<byte>)
      ensures this.buf == buf && pos == 0
    {
      this.buf := buf;
      pos := 0;
    }

    /** A read ended as specified: with its value and position, or with a failure. */
    ghost predicate Ended<T(!new)>(spec: Read<T>, r: Option<T>)
      reads this
    {
      match spec
      case Got(v, p) => r == Some(v) && pos == p
      case Fail => r.None?
    }

    method Read(w: nat) returns (r: Option<nat>)
      modifies this
      ensures Ended(ReadBits(buf, old(pos), w), r)
    {
      if pos + w > |buf| {
        return None;
      }
      var value := FromLittleEndian(buf[pos..pos + w]);
      pos := pos + w;
      return Some(value);
    }

    method ReadString() returns (r: Option<seq<byte>>)
      modifies this
      ensures Ended(ReadText(buf, old(pos)), r)
    {
      var length :- Read(8);
      var raw := Slice(buf, pos, pos + length);
      pos := pos + length;
      return Some(raw);
    }

    method SkipArray() returns (r: Option<()>)
      modifies this
      ensures Ended(Gguf.SkipArray(buf, old(pos)), r)
    {
      var elem :- Read(4);
      var count :- Read(8);
      if IsScalar(elem) {
        pos := pos + Width(elem) * count;
      } else if elem == STRING {
        ghost var start := pos;
        for i := 0 to count
          invariant SkipTexts(buf, start, count) == SkipTexts(buf, pos, count - i)
        {
          var text := ReadString();
          if text.None? {
            return None;
          }
        }
      } else {
        return None;
      }
      return Some(());
    }

    method SkipValue(tag: nat) returns (r: Option<()>)
      modifies this
      ensures Ended(Gguf.SkipValue(buf, old(pos), tag), r)
    {
      if IsScalar(tag) {
        pos := pos + Width(tag);
      } else if tag == STRING {
        var _ :- ReadString();
      } else if tag == ARRAY {
        r := SkipArray();
        return;
      } else {
        return None;
      }
      return Some(());
    }

    method ReadScalarValue(tag: nat) returns (r: Option<Value>)
      modifies this
      ensures Ended(ReadValue(buf, old(pos), tag), r)
    {
      if IsScalar(tag) {
        var bits :- Read(Width(tag));
        return Some(Interpret(tag, bits));
      }
      if tag == STRING {
        var text :- ReadString();
        return Some(Text(text));
      }
      if tag == ARRAY {
        var _ :- SkipArray();
        return Some(NoValue);
      }
      return None;
    }

    /** One entry: its value is kept or skipped depending on its key. */
    method ScanOne(s: Scan) returns (r: Option<Scan>)
      modifies this
      ensures Ended(ScanEntry(buf, old(pos), s), r)
    {
      hide WantedKeys, ReadValue, Gguf.SkipValue, ReadText;
      var key :- ReadString();
      var tag :- Read(4);
      if key == ARCHITECTURE {
        var arch :- ReadScalarValue(tag);
        return Some(s.(arch := arch, wanted := if arch.Text? then WantedKeys(arch.bytes) else s.wanted));
      }
      if key in GENERAL_KEYS {
        var v :- ReadScalarValue(tag);
        return Some(s.(collected := s.collected[GENERAL_KEYS[key] := v]));
      }
      if key in s.wanted {
        var v :- ReadScalarValue(tag);
        return Some(s.(collected := s.collected[s.wanted[key] := v]));
      }
      var _ :- SkipValue(tag);
      return Some(s);
    }
  }

  method ReadInfo(buf: seq<byte>, fileSize: nat) returns (info: Option<Info>)
    ensures info == Parse(buf, fileSize)
  {
    hide ScanEntry, Summary;
    var cursor := new Cursor(buf);
    if Slice(buf, 0, 4) != MAGIC {
      return None;
    }
    cursor.pos := 4;
    var _ :- cursor.Read(4);  // version
    var _ :- cursor.Read(8);  // tensor count
    var count :- cursor.Read(8);
    var s := NEW_SCAN;
    for i := 0 to count
      invariant cursor.buf == buf
      invariant ScanEntries(buf, 24, count, NEW_SCAN) == ScanEntries(buf, cursor.pos, count - i, s)
    {
      var next := cursor.ScanOne(s);
      if next.None? {
        return None;
      }
      s := next.value;
    }
    return Some(Summary(s.arch, f => Lookup(s.collected, f), fileSize));
  }
}
