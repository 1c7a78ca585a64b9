/** The register file. */
module Regs {
  import opened Arch
  import Util

  /**
   * `RegMap`: sixteen 8-bit registers V0-VF, the delay and sound timers, the
   * 16-bit index register I, the program counter and the stack pointer. The
   * machine owns one such record and replaces it as instructions execute.
   */
  datatype RegMap = RegMap(vx: seq<uint8>, dt: uint8, st: uint8, i: uint16, pc: uint16, sp: uint8)

  /** `RegMap::new`: every register, timer and pointer starts at zero. */
  function New(): (r: RegMap)
    ensures |r.vx| == NVRegs
    ensures forall k :: 0 <= k < NVRegs ==> r.vx[k] == 0
    ensures r.dt == 0 && r.st == 0
    ensures r.i == 0
    ensures r.pc == 0 && r.sp == 0
  {
    RegMap(Util.Zeroed(NVRegs, 0), 0, 0, 0, 0, 0)
  }
}
