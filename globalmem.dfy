/** The globalmem device as kernel state: one shared buffer object and the
    open files that point at it. Each file operation is one pass through its
    critical section, proved to do what the step functions of
    GlobalMemSpec describe. */
module GlobalMem {
  import opened GlobalMemSpec

  /** struct globalmem_dev: the byte array `mem` and the fill counter
      `current_len`. The first `currentLen` bytes of `mem` are the unread
      content, oldest first. */
  class Device {
    var mem: array<byte>
    var currentLen: nat

    ghost predicate Valid()
      reads this
    {
      mem.Length == SIZE && currentLen <= SIZE
    }

    /** The unread content of the device. */
    ghost function Contents(): (s: seq<byte>)
      reads this, mem
      requires Valid()
      ensures |s| == currentLen <= SIZE
    {
      mem[..currentLen]
    }

    /** The device as globalmem_init allocates it with kzalloc: every byte
        and the fill counter are zero. */
    constructor ()
      ensures Valid() && fresh(mem)
      ensures currentLen == 0 && Contents() == []
      ensures mem[..] == Zeros(SIZE)
    {
      mem := new byte[SIZE](_ => 0);
      currentLen := 0;
    }

    /** The tail of a successful read (lines 72-73): drop the first `count`
        bytes of the content by moving the rest to the front, as memmove
        does, and lower the counter. */
    method Consume(count: nat)
      requires Valid() && count <= currentLen
      modifies this`currentLen, mem
      ensures Valid()
      ensures Contents() == old(Contents())[count..]
      ensures forall i :: 0 <= i < currentLen ==> mem[i] == old(mem[i + count])
      ensures forall i :: currentLen <= i < SIZE ==> mem[i] == old(mem[i])
    {
      var len := currentLen;
      forall i | 0 <= i < len - count {
        mem[i] := mem[i + count];
      }
      currentLen := len - count;
      assert forall i :: 0 <= i < currentLen ==> Contents()[i] == old(Contents())[count..][i];
    }

    /** The tail of a successful write (lines 121-125): copy the first
        `count` bytes of `src` right after the content and raise the
        counter. */
    method Append(src: seq<byte>, count: nat)
      requires Valid() && count <= |src| && currentLen + count <= SIZE
      modifies this`currentLen, mem
      ensures Valid()
      ensures Contents() == old(Contents()) + src[..count]
      ensures forall i :: currentLen <= i < SIZE ==> mem[i] == old(mem[i])
    {
      var len := currentLen;
      forall i | 0 <= i < count {
        mem[len + i] := src[i];
      }
      currentLen := len + count;
      assert forall i :: 0 <= i < currentLen ==> Contents()[i] == (old(Contents()) + src[..count])[i];
    }
  }

  /** An open file on the device (struct file): `private_data` is the shared
      device, `f_pos` its position, `f_flags & O_NONBLOCK` its mode. The
      mode is a field because fcntl(F_SETFL) can change it on an open file;
      the driver reads it afresh on every call. */
  class File {
    const dev: Device
    var nonBlocking: bool
    var pos: int

    ghost predicate Valid()
      reads this, dev
    {
      dev.Valid() && 0 <= pos <= SIZE
    }

    /** globalmem_open: the file refers to the one device; the kernel starts
        its position at 0. */
    constructor Open(d: Device, nonBlocking: bool)
      requires d.Valid()
      ensures Valid()
      ensures dev == d && this.nonBlocking == nonBlocking && pos == 0
    {
      dev := d;
      this.nonBlocking := nonBlocking;
      pos := 0;
    }

    /** globalmem_read at position `*ppos`, which is `pos` for read(2) and
        the caller's offset for pread(2); neither is moved. `size` is the
        requested count, `signal` says a signal is pending when a blocking
        reader wakes, `fault` says the caller's buffer cannot be written.
        `data` is what the caller's buffer receives. */
    method Read(ppos: int, size: nat, signal: bool, fault: bool) returns (ret: Ret, data: seq<byte>)
      requires Valid()
      modifies dev`currentLen, dev.mem
      ensures Valid()
      ensures var o := ReadStep(old(dev.Contents()), ppos, size, nonBlocking, signal, fault);
              ret == o.ret && data == o.data && dev.Contents() == o.queue
      // the shift moves the rest of the content to the front, as memmove does
      ensures ret.Ok? ==> forall i :: 0 <= i < dev.currentLen ==> dev.mem[i] == old(dev.mem[i + ret.n])
      // bytes past the new content are not touched
      ensures forall i :: dev.currentLen <= i < SIZE ==> dev.mem[i] == old(dev.mem[i])
    {
      var p := ULong(ppos);
      if p >= SIZE {
        return Ok(0), [];
      }
      if dev.currentLen == 0 {
        data := [];
        if nonBlocking {
          ret := Err(EAGAIN);
        } else if signal {
          ret := Err(ERESTARTSYS);
        } else {
          ret := Sleep;
        }
        return;
      }
      var count := UInt(size);
      if count > dev.currentLen {
        count := dev.currentLen;
      }
      if fault && count > 0 {
        return Err(EFAULT), [];
      }
      data := dev.mem[..count];
      dev.Consume(count);
      ret := Ok(count);
    }

    /** globalmem_write at position `*ppos` (as for Read): `src` holds the
        bytes the caller offers, `signal` and `fault` as for Read. Accepted
        bytes go right after the content, whatever the position. */
    method Write(ppos: int, src: seq<byte>, signal: bool, fault: bool) returns (ret: Ret)
      requires Valid()
      modifies dev`currentLen, dev.mem
      ensures Valid()
      ensures var o := WriteStep(old(dev.Contents()), ppos, src, nonBlocking, signal, fault);
              ret == o.ret && dev.Contents() == o.queue
      // bytes past the new content are not touched
      ensures forall i :: dev.currentLen <= i < SIZE ==> dev.mem[i] == old(dev.mem[i])
    {
      var p := ULong(ppos);
      if p > SIZE {
        return Ok(0);
      }
      var count := UInt(|src|);
      if count > SIZE - p {
        count := SIZE - p;
      }
      if dev.currentLen == SIZE {
        if nonBlocking {
          ret := Err(EAGAIN);
        } else if signal {
          ret := Err(ERESTARTSYS);
        } else {
          ret := Sleep;
        }
        return;
      }
      if count > SIZE - dev.currentLen {
        count := SIZE - dev.currentLen;
      }
      if fault && count > 0 {
        return Err(EFAULT);
      }
      dev.Append(src, count);
      ret := Ok(count);
    }

    /** globalmem_llseek, with the SEEK_SET bound checked on the full
        offset (see GlobalMemSpec.SeekAsWritten for the code as written).
        On success the position moves and is returned; otherwise EINVAL and
        the position stays. */
    method Llseek(offset: int, whence: int) returns (ret: Ret)
      requires Valid() && IsLoff(offset)
      modifies this`pos
      ensures Valid()
      ensures ret == Seek(old(pos), offset, whence)
      ensures pos == if ret.Ok? then ret.n else old(pos)
    {
      if whence == 0 {
        if offset < 0 || offset > SIZE {
          return Err(EINVAL);
        }
        pos := offset;
        ret := Ok(pos);
      } else if whence == 1 {
        var target := Wrap64(pos + offset);
        if target > SIZE || target < 0 {
          return Err(EINVAL);
        }
        pos := target;
        ret := Ok(pos);
      } else {
        ret := Err(EINVAL);
      }
    }

    /** globalmem_ioctl: MEM_CLEAR zeroes all SIZE bytes and keeps the fill
        counter, so the content keeps its length and becomes zeros; any
        other command is EINVAL and changes nothing. */
    method Ioctl(cmd: nat) returns (ret: Ret)
      requires Valid()
      modifies dev.mem
      ensures Valid()
      ensures var o := IoctlStep(old(dev.mem[..]), cmd);
              ret == o.ret && dev.mem[..] == o.mem
      ensures ret == if cmd == MEM_CLEAR then Ok(0) else Err(EINVAL)
      ensures cmd == MEM_CLEAR ==> dev.mem[..] == Zeros(SIZE)
      ensures cmd == MEM_CLEAR ==> dev.Contents() == Zeros(|old(dev.Contents())|)
      ensures cmd != MEM_CLEAR ==> dev.mem[..] == old(dev.mem[..])
    {
      if cmd != MEM_CLEAR {
        return Err(EINVAL);
      }
      forall i | 0 <= i < SIZE {
        dev.mem[i] := 0;
      }
      ret := Ok(0);
      assert dev.Contents() == Zeros(dev.currentLen);
    }
  }

  /** A session on one device through two files: write 10 bytes, read 3,
      write 10 more, read what is left. Every byte read is a byte written,
      in order. */
  method SessionRoundTrip(a: seq<byte>, b: seq<byte>)
    requires |a| == 10 && |b| == 10
  {
    var d := new Device();
    var w := new File.Open(d, true);
    var r := new File.Open(d, true);
    var n1 := w.Write(w.pos, a, false, false);
    assert a[..10] == a;
    var m1, x := r.Read(r.pos, 3, false, false);
    assert x == a[..3];
    var n2 := w.Write(w.pos, b, false, false);
    assert b[..10] == b;
    var m2, y := r.Read(r.pos, SIZE, false, false);
    assert n1 == Ok(10) && n2 == Ok(10) && m1 == Ok(3) && m2 == Ok(17);
    assert y == a[3..] + b;
    assert x + y == a[..3] + a[3..] + b;
    assert a[..3] + a[3..] == a;
    assert x + y == a + b;
    var m3, z := r.Read(r.pos, 1, false, false);
    assert m3 == Err(EAGAIN) && z == [];
  }
}
