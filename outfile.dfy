/** A binary stdio stream opened with mode "wb": its contents and the
    position `fwrite` writes at, which `fseek(…, SEEK_SET)` moves. */
module OutFile {
  import opened Bytes

  function Max(a: int, b: int): int
  {
    if a < b then b else a
  }

  /** `n` zero bytes: what a gap left by seeking past the end reads as. */
  function Zeros(n: nat): (r: seq<byte>)
    ensures |r| == n
    ensures forall k :: 0 <= k < n ==> r[k] == 0
  {
    seq(n, _ => 0)
  }

  /** The contents after storing one byte at position `at`: an existing byte
      is replaced, and a file shorter than `at` is first padded with zeros. */
  function Put(file: seq<byte>, at: nat, b: byte): (r: seq<byte>)
    ensures |r| == Max(|file|, at + 1)
    ensures r[at] == b
    ensures forall k :: 0 <= k < |r| && k != at ==> r[k] == if k < |file| then file[k] else 0
  {
    if at < |file| then file[at := b] else file + Zeros(at - |file|) + [b]
  }

  /** The contents after writing `data` at position `at`, byte by byte, as
      `fwrite` leaves them (see OverwriteContents). */
  function Overwrite(file: seq<byte>, at: nat, data: seq<byte>): (r: seq<byte>)
    ensures |r| == if |data| == 0 then |file| else Max(|file|, at + |data|)
    decreases |data|
  {
    if |data| == 0 then file else Overwrite(Put(file, at, data[0]), at + 1, data[1..])
  }

  /** A write replaces the bytes at `at` with `data`, grows the file when it
      runs past the end, fills a gap between the old end and `at` with zeros,
      and leaves every other byte alone; writing nothing changes nothing. */
  lemma {:induction false} OverwriteContents(file: seq<byte>, at: nat, data: seq<byte>)
    ensures |data| == 0 ==> Overwrite(file, at, data) == file
    ensures |data| > 0 ==> forall k :: 0 <= k < at ==> Overwrite(file, at, data)[k] == if k < |file| then file[k] else 0
    ensures forall k :: 0 <= k < |data| ==> Overwrite(file, at, data)[at + k] == data[k]
    ensures forall k :: at + |data| <= k < |Overwrite(file, at, data)| ==> Overwrite(file, at, data)[k] == file[k]
    decreases |data|
  {
    if |data| > 0 {
      var p := Put(file, at, data[0]);
      var rest := data[1..];
      var r := Overwrite(p, at + 1, rest);
      assert r == Overwrite(file, at, data);
      OverwriteContents(p, at + 1, rest);
      forall k | 0 <= k < |data|
        ensures r[at + k] == data[k]
      {
        if k > 0 {
          assert r[at + 1 + (k - 1)] == rest[k - 1];
        }
      }
    }
  }

  /** Two writes that follow each other amount to one write of both. */
  lemma {:induction false} OverwriteConsecutive(file: seq<byte>, at: nat, d1: seq<byte>, d2: seq<byte>)
    ensures Overwrite(Overwrite(file, at, d1), at + |d1|, d2) == Overwrite(file, at, d1 + d2)
    decreases |d1|
  {
    if |d1| == 0 {
      assert d1 + d2 == d2;
    } else {
      var p := Put(file, at, d1[0]);
      OverwriteConsecutive(p, at + 1, d1[1..], d2);
      assert (d1 + d2)[0] == d1[0];
      assert (d1 + d2)[1..] == d1[1..] + d2;
    }
  }

  /** A write that ends inside `a` leaves whatever follows `a` alone. */
  lemma {:induction false} OverwriteWithin(a: seq<byte>, b: seq<byte>, at: nat, data: seq<byte>)
    requires at + |data| <= |a|
    ensures Overwrite(a + b, at, data) == Overwrite(a, at, data) + b
    decreases |data|
  {
    if |data| > 0 {
      assert Put(a + b, at, data[0]) == Put(a, at, data[0]) + b;
      OverwriteWithin(Put(a, at, data[0]), b, at + 1, data[1..]);
    }
  }

  /** Writing at the end of the file appends. */
  lemma OverwriteAtEnd(file: seq<byte>, data: seq<byte>)
    ensures Overwrite(file, |file|, data) == file + data
  {
    OverwriteContents(file, |file|, data);
  }

  /** Appending in two steps is appending once. */
  lemma AppendAssociative(a: seq<byte>, b: seq<byte>, c: seq<byte>)
    ensures a + b + c == a + (b + c)
  {
  }

  class OutputFile {
    /** Everything written so far. */
    var bytes: seq<byte>
    /** The stream position. */
    var pos: nat

    /** `fopen(path, "wb")`: an empty file, positioned at its start. */
    constructor Open()
      ensures bytes == [] && pos == 0
    {
      bytes := [];
      pos := 0;
    }

    /** `fwrite(data, 1, |data|, f)`: writes at the position and moves it past the data. */
    method Write(data: seq<byte>)
      modifies this
      ensures bytes == Overwrite(old(bytes), old(pos), data)
      ensures pos == old(pos) + |data|
    {
      bytes := Overwrite(bytes, pos, data);
      pos := pos + |data|;
    }

    /** `fseek(f, offset, SEEK_SET)`: moves the position, leaves the contents. */
    method Seek(offset: nat)
      modifies this
      ensures bytes == old(bytes)
      ensures pos == offset
    {
      pos := offset;
    }
  }
}
