/**
 Reading a driver attribute completely: read_full restarts after interrupts and short reads,
 and writes straight into the caller's buffer.
 */
module ReadFull {
  import opened Words

  /** An open attribute file. How many more reads will be interrupted is unknown but finite. */
  class Attribute {
    var content: seq<Byte>
    var pos: nat
    var interrupts: nat
    ghost var failures: nat     // calls that failed, or found nothing more to read

    ghost predicate Valid()
      reads this
    {
      pos <= |content|
    }

    constructor (content: seq<Byte>)
      ensures Valid() && this.content == content && pos == 0
    {
      this.content, pos, failures := content, 0, 0;
      interrupts := *;
    }

    /** lseek to the start; may fail. */
    method Rewind() returns (ok: bool)
      requires Valid()
      modifies this`pos, this`failures
      ensures Valid() && (ok ==> pos == 0) && (!ok ==> pos == old(pos))
      ensures failures == old(failures) + if ok then 0 else 1
    {
      ok := *;
      if ok {
        pos := 0;
      } else {
        failures := failures + 1;
      }
    }

    /**
     One read() into buf[at..at + count]: any positive number of the next bytes, 0 (nothing to
     read), or an error, which may be an interrupt.
     */
    method Read(buf: array<Byte>, at: nat, count: nat) returns (n: int, interrupted: bool)
      requires Valid() && at + count <= buf.Length && count > 0
      modifies this`pos, this`interrupts, this`failures, buf
      ensures failures == old(failures) + if n == 0 || (n < 0 && !interrupted) then 1 else 0
      ensures Valid() && -1 <= n <= count
      ensures n >= 0 ==> pos == old(pos) + n && buf[at..at + n] == content[old(pos)..pos]
      ensures n < 0 ==> pos == old(pos)
      ensures buf[..at] == old(buf[..at])
      ensures buf[if n < 0 then at else at + n..] == old(buf[if n < 0 then at else at + n..])
      ensures n < 0 && interrupted ==> interrupts < old(interrupts)
      ensures interrupts <= old(interrupts)
    {
      n, interrupted := -1, false;
      var choice: int := *;
      if choice == -1 && interrupts > 0 {
        interrupted := true;
        interrupts := interrupts - 1;
      } else if choice >= 0 {
        n := if choice <= count then choice else count;
        n := if n <= |content| - pos then n else |content| - pos;
        forall k | 0 <= k < n {
          buf[at + k] := content[pos + k];
        }
        pos := pos + n;
      }
      if n == 0 || (n < 0 && !interrupted) {
        failures := failures + 1;
      }
    }
  }

  /**
   read_full. It fails exactly if a read() does. Success: the first `len` bytes of the buffer are exactly the next `len` bytes of
   the attribute. Failure: a proper prefix of them was written and nothing else changed.
   It terminates because interrupts are finite and every other read makes progress or ends it.
   */
  method ReadFull(file: Attribute, buf: array<Byte>, len: nat) returns (r: int, ghost done: nat)
    requires file.Valid() && len <= buf.Length
    modifies file`pos, file`interrupts, file`failures, buf
    ensures file.Valid()
    ensures file.failures == old(file.failures) + if r == 0 then 0 else 1
    ensures r == 0 || r == -1
    ensures done <= len && (r == 0 <==> done == len)
    ensures file.pos == old(file.pos) + done
    ensures buf[..done] == file.content[old(file.pos)..old(file.pos) + done]
    ensures buf[done..] == old(buf[done..])
  {
    var n := 0;
    done := 0;
    while n < len
      invariant file.Valid() && done == n <= len && file.pos == old(file.pos) + n
      invariant file.failures == old(file.failures)
      invariant buf[..n] == file.content[old(file.pos)..old(file.pos) + n]
      invariant buf[n..] == old(buf[n..])
      decreases file.interrupts, len - n
    {
      ghost var before, left := buf[..], file.interrupts;
      var got, interrupted := file.Read(buf, n, len - n);
      if got < 0 {
        assert buf[..] == before[..n] + before[n..];
        if interrupted {
          continue;
        }
        return -1, n;
      }
      if got == 0 {
        return -1, n;
      }
      Advance(old(buf[..]), before, buf[..], file.content, old(file.pos), n, got);
      n := n + got;
      done := n;
    }
    r := 0;
  }

  /** Appending the bytes of one read to what has been read so far. */
  lemma Advance(start: seq<Byte>, before: seq<Byte>, after: seq<Byte>, content: seq<Byte>, pos: nat, n: nat, got: nat)
    requires |start| == |before| == |after| && n + got <= |after| && pos + n + got <= |content|
    requires before[..n] == content[pos..pos + n] && before[n..] == start[n..]
    requires after[..n] == before[..n]
    requires after[n..n + got] == content[pos + n..pos + n + got]
    requires after[n + got..] == before[n + got..]
    ensures after[..n + got] == content[pos..pos + n + got]
    ensures after[n + got..] == start[n + got..]
  {
    assert after[..n + got] == after[..n] + after[n..n + got];
    assert content[pos..pos + n + got] == content[pos..pos + n] + content[pos + n..pos + n + got];
    assert before[n..][got..] == before[n + got..] && start[n..][got..] == start[n + got..];
  }
}
