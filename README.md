# globalmem: a verified model of a FIFO character device

`globalmem` is a Linux character device driver (`chardev/globalmem.c`)
that exposes one shared buffer of `GLOBALMEM_SIZE` = 4096 bytes. The buffer
(`struct globalmem_dev`) holds an array `mem` and a fill counter
`current_len`, and it behaves like a pipe:

- `read` takes bytes from the front of the buffer and shifts the rest to the
  front;
- `write` appends bytes after `current_len`;
- a blocking caller sleeps while the buffer is empty (read) or full (write),
  and a non-blocking caller gets `-EAGAIN` instead;
- `llseek` moves the file position within `[0, 4096]`, which only bounds
  requests: data always comes from the front;
- `ioctl(MEM_CLEAR)` zeroes all 4096 bytes and leaves `current_len` alone.

The model has two modules.

- `GlobalMemSpec` (`globalmem_spec.dfy`) describes the device as values. The
  unread content is the sequence `q` of the first `current_len` bytes.
  `ReadStep` and `WriteStep` give one call's return value and the content
  left after it. `Seek` gives the outcome of a seek. `Run` replays a history
  of reads and writes. The lemmas state the FIFO property, the round trip,
  the blocking rules, behaviour at the end of the device, and clear.
- `GlobalMem` (`globalmem.dfy`) is the kernel state. `Device` is
  `struct globalmem_dev`: an `array<byte>` of 4096 bytes plus `currentLen`.
  `File` is an open file: the shared device, `f_pos` and the `O_NONBLOCK`
  flag. Its methods `Read`, `Write`, `Llseek` and `Ioctl` update the
  array, the counter and the position in place. Each is proved equal to
  the matching spec function: `ReadStep` and `WriteStep` on
  `Contents() == mem[..currentLen]`, `Seek` on the position, and
  `IoctlStep` on the whole array `mem[..]`. The
  invariant `0 <= currentLen <= 4096` is part of `Valid()`, which every
  method keeps.

Inputs from outside the driver are parameters:

- `signal`: a signal is pending when a sleeping caller wakes.
- `fault`: `copy_to_user` / `copy_from_user` fail.
- `ppos`: the position the call is made at. This is `f_pos` for read(2)
  and write(2), and the caller's offset for pread(2) and pwrite(2).

C integer widths are written out:

- `size_t` to `unsigned int` for the count: `UInt`.
- `loff_t` to `unsigned long` for the position: `ULong`.
- 64-bit wrap-around of `f_pos + offset` in `SEEK_CUR`: `Wrap64`.

The shift after a read, `memcpy(mem, mem + count, current_len - count)`,
has overlapping source and destination. The model gives it `memmove`
semantics (a simultaneous `forall` assignment). The code relies on that
forward copy.

Three facts about the code that the model keeps:

- A write at position 4096 clamps the count to 0 but still passes the
  full-buffer check. So on a full buffer a non-blocking write there
  returns `-EAGAIN`, and a blocking one sleeps (`AtEndOfDevice`).
- A read whose count is 0 after conversion to `unsigned int` returns 0,
  even when there is data.
- `globalmem_ioctl` does not take the mutex. This makes no difference in a
  sequential model.

`GlobalMem.SessionRoundTrip` is a client of the two classes, in the style of
a test: on one device, one file writes 10 bytes, another reads 3, the first
writes 10 more, and the second reads the remaining 17. Its assertions check
that the bytes read are the bytes written, in order, and that one more read
gets EAGAIN. It models no function of the driver, so it has no row below.

## Model

| member | source | states |
|---|---|---|
| `GlobalMemSpec.UInt` | chardev/globalmem.c:34 | conversion to `unsigned int`: the result is below 2^32, never exceeds a non-negative input and equals any input already in range |
| `GlobalMemSpec.ULong` | chardev/globalmem.c:33 | conversion of a `loff_t` position to `unsigned long`: below 2^64, identity on non-negative positions, and every negative `loff_t` becomes at least 2^63 (so it is "beyond the device") |
| `GlobalMemSpec.Wrap64` | chardev/globalmem.c:158-166 | 64-bit signed wrap-around of `f_pos + offset`: always a `loff_t`, identity in range, and a positive overflow wraps to a negative value |
| `GlobalMemSpec.ReadStep` | chardev/globalmem.c:31-86 | one read: old content == bytes returned ++ content left (FIFO, nothing lost); position >= 4096 gives 0 and no change; otherwise success iff content is non-empty and the copy does not fault, returning min(count, current_len) bytes; EAGAIN iff empty and non-blocking; ERESTARTSYS iff empty, blocking and signalled; Sleep iff empty, blocking, no signal; EFAULT iff a non-empty copy faults; every error leaves the content unchanged |
| `GlobalMemSpec.PosClamp` | chardev/globalmem.c:96-99 | the first clamp of a write: the count, as `unsigned int`, cut to the room before the end of the device |
| `GlobalMemSpec.WriteStep` | chardev/globalmem.c:88-139 | one write: length stays <= 4096; on success the new content is the old content followed by a prefix of the input of length min(clamped count, 4096 - current_len); position > 4096 gives 0 and no change; otherwise success iff the buffer is not full and the copy does not fault; EAGAIN / ERESTARTSYS / Sleep exactly on a full buffer by mode and signal; EFAULT iff a non-empty copy faults; every error leaves the content unchanged |
| `GlobalMemSpec.Seek` | chardev/globalmem.c:141-174 | intended seek: whence 0 succeeds iff 0 <= offset <= 4096 and moves to offset; whence 1 succeeds iff 0 <= pos + offset <= 4096 (despite the 64-bit wrap of the sum) and moves there; any other whence is EINVAL; a new position is always in [0, 4096] |
| `GlobalMemSpec.SeekAsWritten` | chardev/globalmem.c:145-156 | seek as written: whence 0 succeeds iff offset >= 0 and `(unsigned int)offset` <= 4096, and moves to the truncated offset; other whence values behave as `Seek` |
| `GlobalMemSpec.SeekSetTruncationAccepted` | chardev/globalmem.c:150-154 | SEEK_SET to 2^32 + 5 is accepted as written and lands on 5, while the intended check refuses it |
| `GlobalMemSpec.SeekAsWrittenDiffers` | chardev/globalmem.c:145-156 | the written and intended SEEK_SET differ exactly on offsets above 4096 whose low 32 bits are at most 4096 |
| `GlobalMemSpec.Run` | chardev/globalmem.c:31-139 | a history of reads and writes keeps the length invariant 0 <= current_len <= 4096 after every call, and counts balance: old length + bytes written == bytes read + length left |
| `GlobalMemSpec.RunIsFifo` | chardev/globalmem.c:63-125 | over any history of reads and writes, old content ++ all accepted bytes == all bytes read (in order) ++ content left |
| `GlobalMemSpec.DrainedHistoryReadsAllWritten` | chardev/globalmem.c:63-125 | a history that empties the device has handed readers exactly the old content followed by everything written, in order |
| `GlobalMemSpec.WriteThenReadRoundTrip` | chardev/globalmem.c:63-125 | writing 0 < k <= 4096 bytes into an empty device at position 0 accepts all k, and reading k then returns exactly those bytes and leaves the device empty |
| `GlobalMemSpec.BlockedReaderGetsWrite` | chardev/globalmem.c:44-78 | a blocking reader on an empty device sleeps without changing it; after a write of n bytes its retry returns the first min(count, n) of them |
| `GlobalMemSpec.TwoHalvesFill` | chardev/globalmem.c:103-119 | two writes of 2048 bytes fill an empty device; a third write then gets EAGAIN if non-blocking and sleeps if blocking |
| `GlobalMemSpec.AtEndOfDevice` | chardev/globalmem.c:40-107 | at position 4096 a read returns 0 and changes nothing; a write returns 0 and changes nothing unless the buffer is full, where a non-blocking write gets EAGAIN |
| `GlobalMemSpec.IoctlStep` | chardev/globalmem.c:176-188 | one ioctl: success (0) iff the command is MEM_CLEAR, which makes all 4096 bytes zero; any other command gives EINVAL and the same array |
| `GlobalMemSpec.ReadAfterClear` | chardev/globalmem.c:180-183 | after MEM_CLEAR the content keeps its length: with `len` > 0 bytes stored, a read of the cleared array's first `len` bytes still returns min(count, len) bytes, all zero |
| `GlobalMem.Device.constructor` | chardev/globalmem.c:237 | the device starts as kzalloc leaves it: 4096 zero bytes, `current_len` 0, empty content |
| `GlobalMem.Device.Consume` | chardev/globalmem.c:72-73 | dropping n <= current_len bytes: the content becomes the old content without its first n bytes, `mem[i]` is the old `mem[i + n]` below the new length (memmove of the overlapping regions), bytes past it are untouched, the length invariant holds |
| `GlobalMem.Device.Append` | chardev/globalmem.c:121-125 | adding n bytes where current_len + n <= 4096: the content becomes the old content followed by the first n input bytes, bytes past the new length are untouched, the length invariant holds |
| `GlobalMem.File.Open` | chardev/globalmem.c:190-194 | an open file refers to the shared device, starts at position 0 and keeps its mode |
| `GlobalMem.File.Read` | chardev/globalmem.c:31-86 | the call returns what `ReadStep` says and leaves `mem[..current_len]` as its content; on success `mem[i]` is the old `mem[i + n]` for every remaining byte (the memmove); bytes past the new length are untouched; the length invariant holds; the position does not move |
| `GlobalMem.File.Write` | chardev/globalmem.c:88-139 | the call returns what `WriteStep` says, the new `mem[..current_len]` is its content (old bytes unchanged, input bytes after them), bytes past the new length are untouched, the length invariant holds and the position does not move |
| `GlobalMem.File.Llseek` | chardev/globalmem.c:141-174 | returns `Seek(old pos, offset, whence)`; on success the position becomes that value, on EINVAL it is unchanged; the buffer is not touched |
| `GlobalMem.File.Ioctl` | chardev/globalmem.c:176-188 | returns what `IoctlStep` says and leaves `mem[..]` as its array; MEM_CLEAR returns 0, makes all 4096 bytes zero and keeps `current_len` (the content becomes zeros of the same length); any other command returns EINVAL and changes nothing |

## Left out

- The mutex and the two wait queues (`mutex_lock`/`mutex_unlock`, `add_wait_queue`/`remove_wait_queue`, `schedule`, `wake_up_interruptible`) are left out. They are scheduler plumbing. One call's critical section is modelled sequentially, and "would sleep" is the `Sleep` result. Waking up and checking again is issuing the call again. `signal_pending` is the `signal` input.
- `printk` calls are left out. They only log.
- Device-number allocation, `cdev`, class and device creation, the error labels of `globalmem_init`, and `globalmem_exit` are left out. They are kernel registration calls. Only the zeroed allocation is kept (`Device.constructor`). A failed `kzalloc` is not modelled.
- `globalmem_release` is left out. It does nothing.
- The `globalmem_major` module parameter is left out. It only selects a device number.
- The driver registers no poll or fasync hook, so there is no readiness notification to model. The test clients `test_select.c` and `test_fasync.c` are user-space loops. `hello.c` only logs.
- `GlobalMem.File.Read`: a faulting `copy_to_user` may already have filled part of the caller's buffer. The model returns no data on EFAULT.
- `GlobalMem.File.Write`: a faulting `copy_from_user` may already have copied some bytes into `mem` past `current_len`. The model leaves `mem` unchanged. The valid content is unchanged in both cases.
- `GlobalMem.File.Llseek`: follows the corrected SEEK_SET bound (see Findings). The code as written is `GlobalMemSpec.SeekAsWritten`.
- The model fixes one kernel ABI: a 64-bit kernel (LP64), where `unsigned long` has 64 bits, and the generic `_IOC` layout of x86 and arm, where `_IOC_NONE` is 0 and `MEM_CLEAR` is 0x6700. On a 32-bit kernel `unsigned long p = *ppos` keeps only the low 32 bits of the position, so a pread at 2^32 would read; `ULong` does not model that. On powerpc, mips, sparc and alpha `_IOC_NONE` is 1 in bits 29..31, so `MEM_CLEAR` has another value; `MEM_CLEAR` does not model that.
- The `O_NONBLOCK` flag is the `File.nonBlocking` field. A client may assign it between calls, as fcntl(F_SETFL) or FIONBIO does. Those two calls are kernel code outside the driver and are not modelled.
- The kernel caps a read or write request well below 2^32 before the driver sees it. The model does not assume this. It applies the `unsigned int` conversion of the count for every size.

## Findings

| source | as written | input that shows it | evidently intended | confidence | as-written member | corrected member |
|---|---|---|---|---|---|---|
| chardev/globalmem.c:150-154 | SEEK_SET checks `(unsigned int)offset > GLOBALMEM_SIZE` and sets `f_pos = (unsigned int)offset`, so the upper bound is tested on the low 32 bits of a 64-bit offset | `llseek(fd, 0x100000005, SEEK_SET)` is accepted and moves the position to 5 instead of failing | any offset above 4096 returns `-EINVAL` and leaves the position unchanged | high; follows from the C conversion rules, not executed | `GlobalMemSpec.SeekAsWritten` (with `GlobalMemSpec.SeekSetTruncationAccepted`) | `GlobalMemSpec.Seek` (used by `GlobalMem.File.Llseek`) |
