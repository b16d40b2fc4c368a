/** Bytes, machine integers and the block device that the FAT driver talks to. */
module Machine {
  type Byte = b: int | 0 <= b < 0x100
  type U16 = w: int | 0 <= w < 0x1_0000
  type U32 = w: int | 0 <= w < 0x1_0000_0000

  const SECTOR: nat := 512
  const TWO31: int := 0x8000_0000
  const TWO32: int := 0x1_0000_0000

  /** The `int` that the low 32 bits of `x` stand for. */
  function Signed(x: int): (r: int)
    ensures -TWO31 <= r < TWO31 && (r - x) % TWO32 == 0
  {
    var w := x % TWO32;
    if w < TWO31 then w else w - TWO32
  }

  /** The bytes `s` with `d` laid over them from position `at` on. */
  function Splice(s: seq<Byte>, at: nat, d: seq<Byte>): (r: seq<Byte>)
    requires at + |d| <= |s|
    ensures |r| == |s|
    ensures r[at..at + |d|] == d
    ensures forall k | 0 <= k < |s| :: r[k] == if at <= k < at + |d| then d[k - at] else s[k]
  {
    s[..at] + d + s[at + |d|..]
  }

  function Zeros(n: nat): (r: seq<Byte>)
    ensures |r| == n && forall k | 0 <= k < n :: r[k] == 0
  {
    seq(n, _ => 0)
  }

  /** The disk behind `ata_read_exact` and `ata_write_exact`, together with the kernel allocator
      that supplies the transfer buffers. Any transfer may fail, and so may any allocation; each
      failure is counted in `faults`, so a run without faults is one that leaves `faults` alone. */
  class Device {
    var bytes: seq<Byte>
    var faults: nat

    constructor (image: seq<Byte>)
      ensures bytes == image && faults == 0
    {
      bytes, faults := image, 0;
    }

    /** A failed write may leave anything in the target range, never elsewhere. Unaligned requests
        are refused before any transfer starts. */
    method Write(addr: nat, data: seq<Byte>) returns (ok: bool)
      requires addr + |data| <= |bytes|
      modifies this
      ensures |bytes| == |old(bytes)|
      ensures forall k | 0 <= k < |bytes| && !(addr <= k < addr + |data|) :: bytes[k] == old(bytes)[k]
      ensures ok ==> bytes == Splice(old(bytes), addr, data) && faults == old(faults)
      ensures !ok && addr % SECTOR == 0 && |data| % SECTOR == 0 ==> faults == old(faults) + 1
      ensures !ok && !(addr % SECTOR == 0 && |data| % SECTOR == 0) ==> unchanged(this)
    {
      if |data| == 0 {
        assert Splice(bytes, addr, data) == bytes;
        return true;
      }
      if |data| % SECTOR != 0 || addr % SECTOR != 0 {
        return false;
      }
      var failed: bool := *;
      if failed {
        var torn: seq<Byte> :| |torn| == |data|;
        bytes := Splice(bytes, addr, torn);
        faults := faults + 1;
        return false;
      }
      bytes := Splice(bytes, addr, data);
      return true;
    }

    method Read(addr: nat, count: nat) returns (ok: bool, data: seq<Byte>)
      requires addr + count <= |bytes|
      modifies this`faults
      ensures ok ==> data == bytes[addr..addr + count] && faults == old(faults)
      ensures !ok ==> faults == old(faults) + 1
    {
      var failed: bool := *;
      if failed {
        faults := faults + 1;
        return false, [];
      }
      return true, bytes[addr..addr + count];
    }

    /** An allocation, or a check that a user buffer is still mapped. */
    method Acquire() returns (ok: bool)
      modifies this`faults
      ensures ok ==> faults == old(faults)
      ensures !ok ==> faults == old(faults) + 1
    {
      ok := *;
      if !ok {
        faults := faults + 1;
      }
    }
  }
}
