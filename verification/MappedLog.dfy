/** The growing page-mapped log of log.c and log.h: the file is a sequence of bytes, of which a window that
    ends at the end of the file is mapped; `start`, `buf` and `end` are addresses. */
module MappedLog {
  import opened Mem

  newtype Byte = x: int | 0 <= x < 256

  const PAGE_SIZE: nat := 4096
  const LOG_BUFFER_SIZE: nat := 4096

  function Zeros(n: nat): seq<Byte> {
    seq(n, i => 0)
  }

  /** `log->buf & 0xFFF`, where 0 means the beginning of the new page. */
  function PageOffset(address: nat): (off: nat)
    ensures 0 < off <= PAGE_SIZE
  {
    if address % PAGE_SIZE == 0 then PAGE_SIZE else address % PAGE_SIZE
  }

  /** The offset an address within the last page keeps when the window moves on. */
  lemma LastPage(end: nat, rest: nat)
    requires end % PAGE_SIZE == 0 && rest <= end
    ensures PageOffset(end - rest) == PAGE_SIZE - rest <==> rest < PAGE_SIZE
  {
    if rest < PAGE_SIZE { LastPageOffset(end / PAGE_SIZE, rest); }
  }

  lemma LastPageOffset(pages: nat, rest: nat)
    requires rest < PAGE_SIZE && rest <= pages * PAGE_SIZE
    ensures PageOffset(pages * PAGE_SIZE - rest) == PAGE_SIZE - rest
  {
    if rest > 0 { assert pages * PAGE_SIZE - rest == (pages - 1) * PAGE_SIZE + (PAGE_SIZE - rest); }
  }

  class Writer {
    /** The address mmap gives to the mapping that begins at a file offset, in pages. */
    const place: nat -> nat
    var file: seq<Byte>
    /** File offset of the window. */
    var base: nat
    var start: nat
    var buf: nat
    var end: nat

    /** The window is whole pages at the end of the file. */
    ghost predicate Mapped()
      reads this
    {
      && start % PAGE_SIZE == 0 && end % PAGE_SIZE == 0 && |file| % LOG_BUFFER_SIZE == 0
      && start + PAGE_SIZE <= end && start <= buf && base + (end - start) == |file|
    }

    ghost predicate Valid()
      reads this
    {
      Mapped() && buf <= end
    }

    /** The place in the file that `buf` points to. */
    ghost function Offset(): nat
      reads this
      requires Mapped()
    {
      base + (buf - start)
    }

    /** What has been appended. */
    ghost function Contents(): seq<Byte>
      reads this
      requires Valid()
    {
      file[..Offset()]
    }

    /** new_mapped_log_path */
    constructor (place: nat -> nat)
      ensures Valid() && Contents() == [] && |file| == end - start == 4096
    {
      this.place := place;
      file, base := Zeros(LOG_BUFFER_SIZE), 0;
      start := place(0) * PAGE_SIZE;
      buf := place(0) * PAGE_SIZE;
      end := place(0) * PAGE_SIZE + LOG_BUFFER_SIZE;
    }

    /** enlarge_mapped_log: the file and the window grow by a page; `buf` keeps its place in the file exactly
        when it was in the last page. */
    method Enlarge()
      requires Valid()
      modifies this
      ensures Valid() && file == old(file) + Zeros(LOG_BUFFER_SIZE)
      ensures |file| == old(|file|) + 4096 && end - start == 8192
      ensures Offset() == old(Offset()) <==> old(end - buf) < 4096
      ensures old(end - buf) < 4096 ==> end - buf == old(end - buf) + 4096
    {
      LastPage(end, end - buf);
      var originalSize := |file|;
      file := file + Zeros(LOG_BUFFER_SIZE);
      var mapSize := LOG_BUFFER_SIZE + PAGE_SIZE;
      base := originalSize - PAGE_SIZE;
      start := place(base) * PAGE_SIZE;
      end := start + mapSize;
      buf := start + PageOffset(buf);
    }

    /** next_log_entry, for any entry size: the place it returns is where the log ended and has room for the entry
        exactly when the entry fits in the window, or the window's rest is less than a page and the entry
        fits in that and one more page. */
    method NextEntry(size: nat) returns (entry: nat)
      requires Valid()
      modifies this
      ensures Mapped() && buf == entry + size && start <= entry <= end && old(file) <= file
      ensures base + (entry - start) == old(Offset()) && buf <= end
              <==> size <= old(end - buf) || (old(end - buf) < 4096 && size <= old(end - buf) + 4096)
    {
      if buf + size > end {
        Enlarge();
      }
      entry := buf;
      buf := buf + size;
    }

    /** The caller's stores through the mapping. */
    method Fill(entry: nat, bytes: seq<Byte>)
      requires Valid() && start <= entry && entry + |bytes| <= end
      modifies this`file
      ensures Valid() && |file| == old(|file|)
      ensures var at := base + (entry - start);
              file == old(file)[..at] + bytes + old(file)[at + |bytes|..]
    {
      var at := base + (entry - start);
      file := file[..at] + bytes + file[at + |bytes|..];
    }

    /** Appending an entry no larger than a page, wherever the page boundaries are. */
    method Append(bytes: seq<Byte>)
      requires Valid() && |bytes| <= PAGE_SIZE
      modifies this
      ensures Valid() && Contents() == old(Contents()) + bytes
    {
      ghost var off := Offset();
      var entry := NextEntry(|bytes|);
      Fill(entry, bytes);
      assert file[..off] == old(file)[..off];
      assert file[..off + |bytes|] == file[..off] + bytes;
    }

    /** unmap_truncate_log: the file is exactly what was appended. */
    method Truncate()
      requires Valid()
      modifies this`file
      ensures file == old(Contents())
    {
      file := file[..|file| - (end - buf)];
    }
  }

  /** A log opened for reading; a missing file reads as an empty one. */
  class Reader {
    const data: seq<Byte>
    var buf: nat

    constructor (file: Option<seq<Byte>>)
      ensures data == (if file.Some? then file.value else []) && buf == 0
    {
      data := if file.Some? then file.value else [];
      buf := 0;
    }

    /** What is still to be read. */
    function Rest(): seq<Byte>
      reads this
    {
      if buf <= |data| then data[buf..] else []
    }

    /** read_log_entry */
    method ReadEntry(size: nat) returns (entry: Option<seq<Byte>>)
      modifies this
      ensures entry.Some? <==> old(buf) + size <= |data|
      ensures entry.Some? ==> |entry.value| == size && entry.value + Rest() == old(Rest()) && buf == old(buf) + size
      ensures entry.None? ==> buf == old(buf)
    {
      if buf + size > |data| {
        return None;
      }
      entry := Some(data[buf..buf + size]);
      buf := buf + size;
    }

    /** log_end */
    predicate AtEnd()
      reads this
      ensures buf <= |data| ==> (AtEnd() <==> Rest() == [])
    {
      buf >= |data|
    }
  }

  // ---------------------------------------------------------------- whole logs

  function Concat(entries: seq<seq<Byte>>): seq<Byte> {
    if entries == [] then [] else Concat(entries[..|entries| - 1]) + entries[|entries| - 1]
  }

  predicate AllOf(entries: seq<seq<Byte>>, size: nat) {
    forall i | 0 <= i < |entries| :: |entries[i]| == size
  }

  lemma {:induction false} ConcatAppend(a: seq<seq<Byte>>, b: seq<seq<Byte>>)
    ensures Concat(a + b) == Concat(a) + Concat(b)
  {
    ConcatNothing();
    hide Concat;
    if b == [] {
      assert a + b == a;
    } else {
      var f, x := b[..|b| - 1], b[|b| - 1];
      ConcatAppend(a, f);
      ConcatOneMore(f, x);
      ConcatOneMore(a + f, x);
      assert b == f + [x] && a + b == a + f + [x];
    }
  }

  lemma ConcatNothing()
    ensures Concat([]) == []
  {
  }

  lemma ConcatOneMore(entries: seq<seq<Byte>>, x: seq<Byte>)
    ensures Concat(entries + [x]) == Concat(entries) + x
  {
    assert (entries + [x])[..|entries|] == entries;
  }

  /** What is left of the file after k entries begins with the next one. */
  lemma ConcatRest(entries: seq<seq<Byte>>, size: nat, k: nat)
    requires AllOf(entries, size) && k < |entries|
    ensures Concat(entries[k..]) == entries[k] + Concat(entries[k + 1..])
  {
    assert entries[k..] == [entries[k]] + entries[k + 1..];
    ConcatAppend([entries[k]], entries[k + 1..]);
    assert Concat([entries[k]]) == Concat([]) + entries[k];
  }

  lemma NextRead(entries: seq<seq<Byte>>, size: nat, k: nat, entry: seq<Byte>, rest: seq<Byte>)
    requires AllOf(entries, size) && k <= |entries| && 0 < size == |entry| && entry + rest == Concat(entries[k..])
    ensures k < |entries| && entry == entries[k] && rest == Concat(entries[k + 1..])
  {
    if k < |entries| {
      ConcatRest(entries, size, k);
      assert entry == (entry + rest)[..size] && rest == (entry + rest)[size..];
    }
  }

  lemma NothingLeft(entries: seq<seq<Byte>>, size: nat, k: nat, rest: seq<Byte>)
    requires AllOf(entries, size) && k <= |entries| && rest == Concat(entries[k..]) && |rest| < size
    ensures k == |entries|
  {
    if k < |entries| { ConcatRest(entries, size, k); }
  }

  /** Whatever entries no larger than a page are appended, the finished file is their concatenation. */
  method WriteLog(place: nat -> nat, entries: seq<seq<Byte>>) returns (file: seq<Byte>)
    requires forall i | 0 <= i < |entries| :: |entries[i]| <= PAGE_SIZE
    ensures file == Concat(entries)
  {
    var log := new Writer(place);
    for i := 0 to |entries|
      invariant fresh(log) && log.Valid() && log.Contents() == Concat(entries[..i])
    {
      log.Append(entries[i]);
      assert entries[..i + 1][..i] == entries[..i];
    }
    assert entries[..|entries|] == entries;
    log.Truncate();
    file := log.file;
  }

  /** Fixed-size reads until the end return the entries in their order. */
  method ReadLog(file: seq<Byte>, size: nat, ghost entries: seq<seq<Byte>>) returns (out: seq<seq<Byte>>)
    requires 0 < size && AllOf(entries, size) && file == Concat(entries)
    ensures out == entries
  {
    hide Concat, AllOf;
    var log := new Reader(Some(file));
    out := [];
    ghost var k := 0;
    assert entries[0..] == entries && entries[..0] == [];
    while true
      invariant fresh(log) && log.data == file && log.buf <= |file|
      invariant k <= |entries| && out == entries[..k]
      invariant log.Rest() == Concat(entries[k..])
      decreases |file| - log.buf
    {
      ghost var rest := log.Rest();
      var entry := log.ReadEntry(size);
      if entry.None? {
        NothingLeft(entries, size, k, rest);
        AllTaken(entries);
        return;
      }
      NextRead(entries, size, k, entry.value, log.Rest());
      TakeOneMore(entries, k);
      out := out + [entry.value];
      k := k + 1;
    }
  }

  lemma TakeOneMore<T>(s: seq<T>, k: nat)
    requires k < |s|
    ensures s[..k + 1] == s[..k] + [s[k]]
  {
  }

  lemma AllTaken<T>(s: seq<T>)
    ensures s[..|s|] == s
  {
  }
}
