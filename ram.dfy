/** Main memory: a fixed byte buffer with byte and big-endian word access. */
module Ram {
  import opened Arch
  import Util

  /** `u16::from_be_bytes`: the word whose high byte is `hi` and low byte `lo`. */
  function FromBeBytes(hi: uint8, lo: uint8): (w: uint16)
    ensures w as int == 256 * hi as int + lo as int
  {
    hi as uint16 * 0x100 + lo as uint16
  }

  /** `(v & 0xff00) >> 8`: the high byte of a word. */
  function HiByte(v: uint16): uint8 {
    (v / 0x100) as uint8
  }

  /** `v & 0xff`: the low byte of a word. */
  function LoByte(v: uint16): uint8 {
    (v % 0x100) as uint8
  }

  /** Splitting a word into its two bytes and joining them gives the word back. */
  lemma WordRoundTrip(v: uint16)
    ensures FromBeBytes(HiByte(v), LoByte(v)) == v
  {
  }

  /** Joining two bytes into a word and splitting it gives the bytes back. */
  lemma BytesRoundTrip(hi: uint8, lo: uint8)
    ensures HiByte(FromBeBytes(hi, lo)) == hi
    ensures LoByte(FromBeBytes(hi, lo)) == lo
  {
  }

  /**
   * The memory image after `buf` is written from `addr` on; nothing is
   * written for an empty buffer, whatever `addr` is.
   */
  function Stored(mem: seq<uint8>, addr: int, buf: seq<uint8>): (m: seq<uint8>)
    requires 0 <= addr
    requires |buf| == 0 || addr + |buf| <= |mem|
    ensures |m| == |mem|
    ensures forall j :: 0 <= j < |mem| ==>
              m[j] == if addr <= j < addr + |buf| then buf[j - addr] else mem[j]
  {
    if |buf| == 0 then mem else mem[..addr] + buf + mem[addr + |buf|..]
  }

  /** Byte `j` of the big-endian byte stream of `words`. */
  function WordByte(words: seq<uint16>, j: int): uint8
    requires 0 <= j < 2 * |words|
  {
    if j % 2 == 0 then HiByte(words[j / 2]) else LoByte(words[j / 2])
  }

  /** The big-endian byte stream of a sequence of words. */
  function WordBytes(words: seq<uint16>): (bytes: seq<uint8>)
    ensures |bytes| == 2 * |words|
    ensures forall j :: 0 <= j < |bytes| ==> bytes[j] == WordByte(words, j)
  {
    seq(2 * |words|, j requires 0 <= j < 2 * |words| => WordByte(words, j))
  }

  /**
   * Words built from consecutive byte pairs of `bytes`, high byte first,
   * stream back to those bytes, a trailing odd byte left out.
   */
  lemma PairedBytes(bytes: seq<uint8>, words: seq<uint16>)
    requires |words| == |bytes| / 2
    requires forall k :: 0 <= k < |words| ==> words[k] == FromBeBytes(bytes[2 * k], bytes[2 * k + 1])
    ensures WordBytes(words) == bytes[..2 * |words|]
  {
    forall j | 0 <= j < 2 * |words|
      ensures WordBytes(words)[j] == bytes[j]
    {
      BytesRoundTrip(bytes[2 * (j / 2)], bytes[2 * (j / 2) + 1]);
    }
  }

  /** After a block of words is stored big-endian from `addr`, each word reads back from its own two bytes. */
  lemma WordsReadBack(old_mem: seq<uint8>, mem: seq<uint8>, addr: int, words: seq<uint16>)
    requires 0 <= addr && (|words| == 0 || addr + 2 * |words| <= |old_mem|)
    requires mem == Stored(old_mem, addr, WordBytes(words))
    ensures forall k :: 0 <= k < |words| ==> FromBeBytes(mem[addr + 2 * k], mem[addr + 2 * k + 1]) == words[k]
  {
    forall k | 0 <= k < |words|
      ensures FromBeBytes(mem[addr + 2 * k], mem[addr + 2 * k + 1]) == words[k]
    {
      assert mem[addr + 2 * k] == WordByte(words, 2 * k);
      assert mem[addr + 2 * k + 1] == WordByte(words, 2 * k + 1);
      WordRoundTrip(words[k]);
    }
  }

  /** `Ram`: a fixed buffer of `RamSize` bytes, updated in place. */
  class Ram {
    const mem: array<uint8>

    ghost predicate Valid() {
      mem.Length == RamSize
    }

    /** `Ram::new`: every address below `RamSize` reads 0. */
    constructor ()
      ensures Valid() && fresh(mem)
      ensures mem[..] == Util.Zeroed(RamSize, 0)
    {
      mem := new uint8[RamSize](_ => 0);
    }

    /** `write_u8`: the byte at `addr` becomes `value`; every other byte is unchanged. */
    method WriteU8(addr: uint32, value: uint8)
      requires Valid() && addr as int < RamSize
      modifies mem
      ensures mem[..] == old(mem[..])[addr := value]
      ensures ReadU8(addr) == value
    {
      mem[addr] := value;
    }

    /** `read_u8`. */
    function ReadU8(addr: uint32): uint8
      requires Valid() && addr as int < RamSize
      reads mem
    {
      mem[addr]
    }

    /** `read_u16`: the big-endian word at `addr` and `addr + 1`. */
    function ReadU16(addr: uint32): (w: uint16)
      requires Valid() && addr as int + 1 < RamSize
      reads mem
      ensures w as int == 256 * mem[addr] as int + mem[addr + 1] as int
    {
      FromBeBytes(mem[addr], mem[addr + 1])
    }

    /**
     * `write_u16`: the high byte goes to `addr` and the low byte to
     * `addr + 1`; nothing else changes, and the word reads back.
     */
    method WriteU16(addr: uint32, v: uint16)
      requires Valid() && addr as int + 1 < RamSize
      modifies mem
      ensures mem[..] == old(mem[..])[addr := HiByte(v)][addr + 1 := LoByte(v)]
      ensures ReadU16(addr) == v
    {
      mem[addr] := HiByte(v);
      mem[addr + 1] := LoByte(v);
      WordRoundTrip(v);
    }

    /**
     * `load_block_u16`: word `k` of `buf` is written big-endian at
     * `addr + 2k`; the bytes outside the block are unchanged.
     */
    method LoadBlockU16(addr: uint32, buf: seq<uint16>)
      requires Valid()
      requires |buf| == 0 || addr as int + 2 * |buf| <= RamSize
      modifies mem
      ensures mem[..] == Stored(old(mem[..]), addr as int, WordBytes(buf))
      ensures forall k :: 0 <= k < |buf| ==> ReadU16((addr as int + 2 * k) as uint32) == buf[k]
    {
      var a := addr as int;
      var k := 0;
      while k < |buf|
        invariant 0 <= k <= |buf|
        invariant a == addr as int + 2 * k
        invariant forall j :: 0 <= j < RamSize ==>
                    mem[j] == if addr as int <= j < a then WordByte(buf, j - addr as int) else old(mem[j])
      {
        WriteU16(a as uint32, buf[k]);
        a := a + 2;
        k := k + 1;
      }
      assert mem[..] == Stored(old(mem[..]), addr as int, WordBytes(buf));
      WordsReadBack(old(mem[..]), mem[..], addr as int, buf);
    }

    /**
     * `load_block_u8`: byte `k` of `buf` is written at `addr + k`; the
     * bytes outside the block are unchanged, and the address just past the
     * block is returned.
     */
    method LoadBlockU8(addr: uint32, buf: seq<uint8>) returns (next: uint32)
      requires Valid()
      requires |buf| == 0 || addr as int + |buf| <= RamSize
      modifies mem
      ensures mem[..] == Stored(old(mem[..]), addr as int, buf)
      ensures next as int == addr as int + |buf|
    {
      next := addr;
      var k := 0;
      while k < |buf|
        invariant 0 <= k <= |buf|
        invariant next as int == addr as int + k
        invariant forall j :: 0 <= j < RamSize ==>
                    mem[j] == if addr as int <= j < next as int then buf[j - addr as int] else old(mem[j])
      {
        WriteU8(next, buf[k]);
        next := next + 1;
        k := k + 1;
      }
      assert mem[..] == Stored(old(mem[..]), addr as int, buf);
    }
  }
}
