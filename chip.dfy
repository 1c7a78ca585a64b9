/** The interpreter: the machine state and its fetch-decode-execute cycle. */
module Chip {
  import opened Arch
  import Ram
  import Regs
  import Instr
  import Profile
  import Framebuffer
  import ChipSpec
  import Util

  /**
   * `Chip`: RAM, the digit-sprite address table, the registers, the call
   * stack, the key flags, the framebuffer and the quirk profile. Every
   * method is proved to change the machine as the matching `ChipSpec`
   * function says.
   */
  class Chip {
    const ram: Ram.Ram
    const spriteAddr: array<uint16>
    var regs: Regs.RegMap
    const stack: array<uint16>
    const keys: array<bool>
    const framebuffer: Framebuffer.Framebuffer
    const profile: Profile.Profile

    ghost predicate Valid()
      reads this, spriteAddr, stack, keys, framebuffer.frame
    {
      && ram.Valid() && framebuffer.Valid()
      && spriteAddr.Length == NSprites
      && stack.Length == StackSize
      && keys.Length == NKeys
      && spriteAddr != stack
      && |regs.vx| == NVRegs
      && regs.sp as int <= StackSize
    }

    /** The machine as a value. */
    ghost function State(): (s: ChipSpec.ChipState)
      requires Valid()
      reads this, ram.mem, spriteAddr, stack, keys, framebuffer.frame
      ensures s.Valid()
    {
      ChipSpec.ChipState(ram.mem[..], spriteAddr[..], regs, stack[..], keys[..], framebuffer.GetFrame())
    }

    /**
     * `new_seed`, without the generator seed: the digit sprites are loaded
     * back to back from address 0 and their addresses recorded.
     */
    constructor (profile: Profile.Profile)
      ensures Valid()
      ensures fresh(ram) && fresh(ram.mem) && fresh(spriteAddr) && fresh(stack) && fresh(keys)
      ensures fresh(framebuffer) && fresh(framebuffer.frame)
      ensures this.profile == profile
      ensures State() == ChipSpec.Initial()
    {
      ram := new Ram.Ram();
      spriteAddr := new uint16[NSprites](_ => 0);
      regs := Regs.New();
      stack := new uint16[StackSize](_ => 0);
      keys := new bool[NKeys](_ => false);
      framebuffer := new Framebuffer.Framebuffer();
      this.profile := profile;
      new;
      var addr: uint32 := 0;
      var i := 0;
      while i < NSprites
        modifies ram.mem, spriteAddr
        invariant 0 <= i <= NSprites && addr as int == 5 * i
        invariant forall j :: 0 <= j < RamSize ==>
                    ram.mem[j] == if j < 5 * i then ChipSpec.FontBytes[j] else 0
        invariant forall d :: 0 <= d < i ==> spriteAddr[d] as int == 5 * d
      {
        spriteAddr[i] := addr as uint16;
        ghost var m := ram.mem[..];
        addr := ram.LoadBlockU8(addr, ChipSpec.Sprite(i));
        ChipSpec.FontLoaded(m, ram.mem[..], i);
        i := i + 1;
      }
      ChipSpec.InitialMem(ram.mem[..]);
      assert spriteAddr[..] == ChipSpec.Initial().spriteAddr;
    }

    /** `key_press`: key `key` is held down; the key must exist. */
    method KeyPress(key: uint8)
      requires Valid() && key as int < NKeys
      modifies keys
      ensures Valid()
      ensures State() == old(State()).(keys := old(keys[..])[key := true])
      ensures IsKeyPressed(key)
    {
      keys[key] := true;
    }

    /** `key_unpress`: key `key` is released; the key must exist. */
    method KeyUnpress(key: uint8)
      requires Valid() && key as int < NKeys
      modifies keys
      ensures Valid()
      ensures State() == old(State()).(keys := old(keys[..])[key := false])
      ensures !IsKeyPressed(key)
    {
      keys[key] := false;
    }

    /** `is_key_pressed`. */
    function IsKeyPressed(key: uint8): bool
      requires keys.Length == NKeys && key as int < NKeys
      reads keys
    {
      keys[key]
    }

    /** `set_pc`: only the program counter changes. */
    method SetPc(pc: uint16)
      requires Valid()
      modifies this
      ensures Valid()
      ensures State() == old(State()).WithPc(pc)
    {
      regs := regs.(pc := pc);
    }

    /** `cycle_timers`: each running timer counts down by one; nothing else changes. */
    method CycleTimers()
      requires Valid()
      modifies this
      ensures Valid()
      ensures State() == old(State()).(regs := ChipSpec.Tick(old(regs)))
    {
      if regs.dt > 0 {
        regs := regs.(dt := regs.dt - 1);
      }
      if regs.st > 0 {
        regs := regs.(st := regs.st - 1);
      }
    }

    /** `is_sound_on`: the sound timer is running. */
    function IsSoundOn(): bool
      reads this
    {
      regs.st > 0
    }

    /**
     * `load_rom`: the ROM is read as big-endian words, a trailing odd byte
     * dropped, and the words are stored from `start` on. The bytes stored
     * are the ROM's own, in order; the rest of RAM is unchanged.
     */
    method LoadRom(rom: seq<uint8>, start: uint32)
      requires Valid()
      requires |rom| / 2 == 0 || start as int + 2 * (|rom| / 2) <= RamSize
      modifies ram.mem
      ensures Valid()
      ensures ram.mem[..] == Ram.Stored(old(ram.mem[..]), start as int, rom[..2 * (|rom| / 2)])
    {
      var code: seq<uint16> := [];
      var i := 0;
      while i < |rom| / 2
        invariant 0 <= i <= |rom| / 2 && |code| == i
        invariant forall k :: 0 <= k < i ==> code[k] == Ram.FromBeBytes(rom[2 * k], rom[2 * k + 1])
      {
        var op := Ram.FromBeBytes(rom[2 * i], rom[2 * i + 1]);
        code := code + [op];
        i := i + 1;
      }
      ram.LoadBlockU16(start, code);
      Ram.PairedBytes(rom, code);
    }

    /** `get_frame`. */
    function GetFrame(): (f: Framebuffer.Frame)
      requires Valid()
      reads this, ram.mem, spriteAddr, stack, keys, framebuffer.frame
      ensures f == State().frame
    {
      framebuffer.GetFrame()
    }

    /**
     * `cycle`: fetch the big-endian word at PC, advance PC by 2 and execute
     * the word. A fault leaves the machine as it was before the fetch.
     */
    method Cycle(rnd: uint8) returns (r: ChipSpec.Outcome)
      requires Valid()
      modifies this, ram.mem, stack, framebuffer.frame
      ensures Valid()
      ensures ChipSpec.Realises(r, old(State()), State(), ChipSpec.Step(old(State()), profile, rnd))
    {
      if regs.pc as int + 1 >= RamSize {
        return ChipSpec.Fail(ChipSpec.AddressOutOfRange);
      }
      ghost var s0 := State();
      var pc := regs.pc;
      var code := ram.ReadU16(pc as uint32);
      var ins := Instr.New(code);
      assert ChipSpec.Step(s0, profile, rnd) == ChipSpec.Execute(s0.WithPc(pc + 2), profile, rnd, ins);
      // PC points to the next instruction to execute.
      regs := regs.(pc := pc + 2);
      assert State() == s0.WithPc(pc + 2);
      r := Execute(ins, rnd);
      if r.Fail? {
        assert State() == s0.WithPc(pc + 2);
        regs := regs.(pc := pc);
        assert State() == s0;
      }
    }

    /** One arm of the dispatch in `cycle`, PC already advanced. */
    method Execute(ins: Instr.Instr, rnd: uint8) returns (r: ChipSpec.Outcome)
      requires Valid() && Instr.Decoded(ins) && 2 <= regs.pc as int <= RamSize
      modifies this, ram.mem, stack, framebuffer.frame
      ensures Valid()
      ensures ChipSpec.Realises(r, old(State()), State(), ChipSpec.Execute(old(State()), profile, rnd, ins))
    {
      var x, y := ins.x, ins.y;
      r := ChipSpec.Pass;
      if ins.c == 0x0 {
        r := ExecSystem(ins);
      } else if ins.c == 0x1 {
        // JP addr
        regs := regs.(pc := ins.nnn);
      } else if ins.c == 0x2 {
        r := Call(ins);
      } else if ins.c == 0x3 {
        // SE Vx, nn
        if regs.vx[x] == ins.nn {
          regs := regs.(pc := regs.pc + 2);
        }
      } else if ins.c == 0x4 {
        // SNE Vx, nn
        if regs.vx[x] != ins.nn {
          regs := regs.(pc := regs.pc + 2);
        }
      } else if ins.c == 0x5 {
        // SE Vx, Vy
        if ins.n != 0 {
          return ChipSpec.Fail(ChipSpec.UnknownOpcode(ins.opcode));
        }
        if regs.vx[x] == regs.vx[y] {
          regs := regs.(pc := regs.pc + 2);
        }
      } else if ins.c == 0x6 {
        // LD Vx, nn
        regs := regs.(vx := regs.vx[x := ins.nn]);
      } else if ins.c == 0x7 {
        // ADD Vx, nn, wrapping, VF untouched
        var sum := regs.vx[x] as int + ins.nn as int;
        regs := regs.(vx := regs.vx[x := (sum % 0x100) as uint8]);
      } else if ins.c == 0x8 {
        r := Alu(ins);
      } else if ins.c == 0x9 {
        // SNE Vx, Vy
        if ins.n != 0 {
          return ChipSpec.Fail(ChipSpec.UnknownOpcode(ins.opcode));
        }
        if regs.vx[x] != regs.vx[y] {
          regs := regs.(pc := regs.pc + 2);
        }
      } else if ins.c == 0xA {
        // LD I, nnn
        regs := regs.(i := ins.nnn);
      } else if ins.c == 0xB {
        // JP V0, nnn
        regs := regs.(pc := regs.vx[0] as uint16 + ins.nnn);
      } else if ins.c == 0xC {
        // RND Vx, nn
        regs := regs.(vx := regs.vx[x := BitAnd(rnd, ins.nn)]);
      } else if ins.c == 0xD {
        r := Draw(ins);
      } else if ins.c == 0xE {
        r := Keys(ins);
      } else {
        r := Misc(ins);
      }
    }

    /** CLS and RET. */
    method ExecSystem(ins: Instr.Instr) returns (r: ChipSpec.Outcome)
      requires Valid()
      modifies this, framebuffer.frame
      ensures Valid()
      ensures ChipSpec.Realises(r, old(State()), State(), ChipSpec.ExecSystem(old(State()), ins))
    {
      r := ChipSpec.Pass;
      if ins.opcode == 0x00E0 {
        framebuffer.Clear();
      } else if ins.opcode == 0x00EE {
        if regs.sp == 0 {
          return ChipSpec.Fail(ChipSpec.StackUnderflow);
        }
        regs := regs.(sp := regs.sp - 1);
        regs := regs.(pc := stack[regs.sp]);
      } else {
        r := ChipSpec.Fail(ChipSpec.UnknownOpcode(ins.opcode));
      }
    }

    /** CALL addr. */
    method Call(ins: Instr.Instr) returns (r: ChipSpec.Outcome)
      requires Valid()
      modifies this, stack
      ensures Valid()
      ensures ChipSpec.Realises(r, old(State()), State(), ChipSpec.Call(old(State()), ins))
    {
      if regs.sp as int >= StackSize {
        return ChipSpec.Fail(ChipSpec.StackOverflow);
      }
      stack[regs.sp] := regs.pc;
      regs := regs.(sp := regs.sp + 1);
      regs := regs.(pc := ins.nnn);
      r := ChipSpec.Pass;
    }

    /** Class 8, register to register. */
    method Alu(ins: Instr.Instr) returns (r: ChipSpec.Outcome)
      requires Valid() && Instr.Decoded(ins)
      modifies this
      ensures Valid()
      ensures ChipSpec.Realises(r, old(State()), State(), ChipSpec.ExecAlu(old(State()), profile, ins))
    {
      var x, y := ins.x, ins.y;
      r := ChipSpec.Pass;
      if ins.n == 0x0 {
        // LD Vx, Vy
        regs := regs.(vx := regs.vx[x := regs.vx[y]]);
      } else if ins.n == 0x1 {
        // OR Vx, Vy
        regs := regs.(vx := regs.vx[x := BitOr(regs.vx[x], regs.vx[y])]);
      } else if ins.n == 0x2 {
        // AND Vx, Vy
        regs := regs.(vx := regs.vx[x := BitAnd(regs.vx[x], regs.vx[y])]);
      } else if ins.n == 0x3 {
        // XOR Vx, Vy
        regs := regs.(vx := regs.vx[x := BitXor(regs.vx[x], regs.vx[y])]);
      } else if ins.n == 0x4 || ins.n == 0x5 || ins.n == 0x7 {
        Arith(ins);
      } else if ins.n == 0x6 || ins.n == 0xE {
        Shift(ins);
      } else {
        r := ChipSpec.Fail(ChipSpec.UnknownOpcode(ins.opcode));
      }
    }

    /** ADD, SUB and SUBN: Vx gets the wrapped result, then VF the carry or the absence of a borrow. */
    method Arith(ins: Instr.Instr)
      requires Valid() && Instr.Decoded(ins) && (ins.n == 0x4 || ins.n == 0x5 || ins.n == 0x7)
      modifies this
      ensures Valid()
      ensures ChipSpec.Realises(ChipSpec.Pass, old(State()), State(), ChipSpec.ExecAlu(old(State()), profile, ins))
    {
      var x, y := ins.x, ins.y;
      if ins.n == 0x4 {
        // ADD Vx, Vy; VF := carry
        var sum := regs.vx[x] as int + regs.vx[y] as int;
        var overflow := sum >= 0x100;
        regs := regs.(vx := regs.vx[x := (sum % 0x100) as uint8]);
        regs := regs.(vx := regs.vx[0xF := if overflow then 1 else 0]);
      } else if ins.n == 0x5 {
        // SUB Vx, Vy; VF := not borrow
        var diff := regs.vx[x] as int - regs.vx[y] as int;
        var overflow := diff < 0;
        regs := regs.(vx := regs.vx[x := (diff % 0x100) as uint8]);
        regs := regs.(vx := regs.vx[0xF := if overflow then 0 else 1]);
      } else {
        // SUBN Vx, Vy; VF := not borrow
        var diff := regs.vx[y] as int - regs.vx[x] as int;
        var overflow := diff < 0;
        regs := regs.(vx := regs.vx[x := (diff % 0x100) as uint8]);
        regs := regs.(vx := regs.vx[0xF := if overflow then 0 else 1]);
      }
    }

    /** SHR and SHL: the optional copy of Vy, then VF gets the bit shifted out, then Vx is shifted. */
    method Shift(ins: Instr.Instr)
      requires Valid() && Instr.Decoded(ins) && (ins.n == 0x6 || ins.n == 0xE)
      modifies this
      ensures Valid()
      ensures ChipSpec.Realises(ChipSpec.Pass, old(State()), State(), ChipSpec.ExecAlu(old(State()), profile, ins))
    {
      var x, y := ins.x, ins.y;
      if ins.n == 0x6 {
        // SHR Vx, Vy
        if profile.op8xy6UseVy {
          regs := regs.(vx := regs.vx[x := regs.vx[y]]);
        }
        regs := regs.(vx := regs.vx[0xF := regs.vx[x] % 2]);
        regs := regs.(vx := regs.vx[x := regs.vx[x] / 2]);
      } else {
        // SHL Vx, Vy
        if profile.op8xyEUseVy {
          regs := regs.(vx := regs.vx[x := regs.vx[y]]);
        }
        regs := regs.(vx := regs.vx[0xF := if regs.vx[x] >= 0x80 then 1 else 0]);
        regs := regs.(vx := regs.vx[x := ((2 * regs.vx[x] as int) % 0x100) as uint8]);
      }
    }

    /** DRW Vx, Vy, n. */
    method Draw(ins: Instr.Instr) returns (r: ChipSpec.Outcome)
      requires Valid() && Instr.Decoded(ins)
      modifies this, framebuffer.frame
      ensures Valid()
      ensures ChipSpec.Realises(r, old(State()), State(), ChipSpec.Draw(old(State()), ins))
    {
      var addrStart := regs.i as int;
      var addrEnd := addrStart + ins.n as int;
      if addrEnd > RamSize {
        return ChipSpec.Fail(ChipSpec.AddressOutOfRange);
      }
      var sprites := Util.Slice(ram.mem[..], addrStart, addrEnd);
      var startX := regs.vx[ins.x] as uint32;
      var startY := regs.vx[ins.y] as uint32;
      var collisions := framebuffer.DrawSprite(sprites, startX, startY);
      regs := regs.(vx := regs.vx[0xF := if collisions then 1 else 0]);
      r := ChipSpec.Pass;
    }

    /** SKP Vx and SKNP Vx. */
    method Keys(ins: Instr.Instr) returns (r: ChipSpec.Outcome)
      requires Valid() && Instr.Decoded(ins) && regs.pc as int <= RamSize
      modifies this
      ensures Valid()
      ensures ChipSpec.Realises(r, old(State()), State(), ChipSpec.ExecKeys(old(State()), ins))
    {
      var key := regs.vx[ins.x];
      r := ChipSpec.Pass;
      if ins.nn == 0x9E {
        if key as int >= NKeys {
          return ChipSpec.Fail(ChipSpec.KeyOutOfRange);
        }
        if IsKeyPressed(key) {
          regs := regs.(pc := regs.pc + 2);
        }
      } else if ins.nn == 0xA1 {
        if key as int >= NKeys {
          return ChipSpec.Fail(ChipSpec.KeyOutOfRange);
        }
        if !IsKeyPressed(key) {
          regs := regs.(pc := regs.pc + 2);
        }
      } else {
        r := ChipSpec.Fail(ChipSpec.UnknownOpcode(ins.opcode));
      }
    }

    /** The position of the first pressed key, scanning from key 0. */
    method FirstPressedKey() returns (k: ChipSpec.Option<nat>)
      requires Valid()
      ensures k == ChipSpec.FirstPressed(keys[..])
    {
      var i := 0;
      while i < NKeys && !keys[i]
        invariant 0 <= i <= NKeys
        invariant forall j :: 0 <= j < i ==> !keys[j]
      {
        i := i + 1;
      }
      k := if i < NKeys then ChipSpec.Some(i) else ChipSpec.None;
    }

    /** Class F. */
    method Misc(ins: Instr.Instr) returns (r: ChipSpec.Outcome)
      requires Valid() && Instr.Decoded(ins) && 2 <= regs.pc as int
      modifies this, ram.mem
      ensures Valid()
      ensures ChipSpec.Realises(r, old(State()), State(), ChipSpec.ExecMisc(old(State()), profile, ins))
    {
      var x := ins.x;
      r := ChipSpec.Pass;
      if ins.nn == 0x07 {
        // LD Vx, DT
        regs := regs.(vx := regs.vx[x := regs.dt]);
      } else if ins.nn == 0x0A {
        // LD Vx, K: without a pressed key PC steps back onto this instruction.
        var k := FirstPressedKey();
        match k
        case Some(key) =>
          regs := regs.(vx := regs.vx[x := key as uint8]);
        case None =>
          regs := regs.(pc := regs.pc - 2);
      } else if ins.nn == 0x15 {
        // LD DT, Vx
        regs := regs.(dt := regs.vx[x]);
      } else if ins.nn == 0x18 {
        // LD ST, Vx
        regs := regs.(st := regs.vx[x]);
      } else if ins.nn == 0x1E {
        // ADD I, Vx
        if regs.i as int + regs.vx[x] as int >= 0x1_0000 {
          return ChipSpec.Fail(ChipSpec.IndexOverflow);
        }
        regs := regs.(i := regs.i + regs.vx[x] as uint16);
      } else if ins.nn == 0x29 {
        // LD F, Vx
        if regs.vx[x] as int >= NSprites {
          return ChipSpec.Fail(ChipSpec.DigitOutOfRange);
        }
        regs := regs.(i := spriteAddr[regs.vx[x]]);
      } else if ins.nn == 0x33 {
        r := ExecBcd(ins);
      } else if ins.nn == 0x55 {
        r := ExecStore(ins);
      } else if ins.nn == 0x65 {
        r := ExecLoad(ins);
      } else {
        r := ChipSpec.Fail(ChipSpec.UnknownOpcode(ins.opcode));
      }
    }

    /** LD B, Vx: the three bytes from I must lie in RAM. */
    method ExecBcd(ins: Instr.Instr) returns (r: ChipSpec.Outcome)
      requires Valid() && Instr.Decoded(ins) && 2 <= regs.pc as int && ins.nn == 0x33
      modifies ram.mem
      ensures Valid()
      ensures ChipSpec.Realises(r, old(State()), State(), ChipSpec.ExecMisc(old(State()), profile, ins))
    {
      if regs.i as int + 2 >= RamSize {
        return ChipSpec.Fail(ChipSpec.AddressOutOfRange);
      }
      StoreBcd(regs.vx[ins.x]);
      r := ChipSpec.Pass;
    }

    /** LD [I], Vx: the block from I to I + x must lie in RAM; I then moves past it if the profile says so. */
    method ExecStore(ins: Instr.Instr) returns (r: ChipSpec.Outcome)
      requires Valid() && Instr.Decoded(ins) && 2 <= regs.pc as int && ins.nn == 0x55
      modifies this, ram.mem
      ensures Valid()
      ensures ChipSpec.Realises(r, old(State()), State(), ChipSpec.ExecMisc(old(State()), profile, ins))
    {
      var x := ins.x;
      if regs.i as int + x as int >= RamSize {
        return ChipSpec.Fail(ChipSpec.AddressOutOfRange);
      }
      StoreRegs(x);
      if profile.opFx55StoreI {
        regs := regs.(i := regs.i + x as uint16 + 1);
      }
      r := ChipSpec.Pass;
    }

    /** LD Vx, [I]: the block from I to I + x must lie in RAM; I then moves past it if the profile says so. */
    method ExecLoad(ins: Instr.Instr) returns (r: ChipSpec.Outcome)
      requires Valid() && Instr.Decoded(ins) && 2 <= regs.pc as int && ins.nn == 0x65
      modifies this
      ensures Valid()
      ensures ChipSpec.Realises(r, old(State()), State(), ChipSpec.ExecMisc(old(State()), profile, ins))
    {
      var x := ins.x;
      if regs.i as int + x as int >= RamSize {
        return ChipSpec.Fail(ChipSpec.AddressOutOfRange);
      }
      LoadRegs(x);
      if profile.opFx65StoreI {
        regs := regs.(i := regs.i + x as uint16 + 1);
      }
      r := ChipSpec.Pass;
    }

    /** The body of Fx33: the decimal digits of `v` are written at I, I + 1 and I + 2. */
    method StoreBcd(v: uint8)
      requires Valid() && regs.i as int + 2 < RamSize
      modifies ram.mem
      ensures Valid()
      ensures ram.mem[..] == Ram.Stored(old(ram.mem[..]), regs.i as int, ChipSpec.Bcd(v))
    {
      var bcd := [v / 100, (v / 10) % 10, v % 10];
      var _ := ram.LoadBlockU8(regs.i as uint32, bcd);
    }

    /** The loop of Fx55: V0 to Vx inclusive are written to RAM from I on. */
    method StoreRegs(x: uint8)
      requires Valid() && x as int < NVRegs && regs.i as int + x as int < RamSize
      modifies ram.mem
      ensures Valid()
      ensures ram.mem[..] == Ram.Stored(old(ram.mem[..]), regs.i as int, regs.vx[..x as int + 1])
    {
      var k := 0;
      while k <= x as int
        invariant 0 <= k <= x as int + 1
        invariant forall j :: 0 <= j < RamSize ==>
                    ram.mem[j] == if regs.i as int <= j < regs.i as int + k then regs.vx[j - regs.i as int] else old(ram.mem[j])
      {
        var addr: uint32 := regs.i as uint32 + k as uint32;
        ram.WriteU8(addr, regs.vx[k]);
        k := k + 1;
      }
      assert ram.mem[..] == Ram.Stored(old(ram.mem[..]), regs.i as int, regs.vx[..x as int + 1]);
    }

    /** The loop of Fx65: V0 to Vx inclusive are read from RAM from I on; the other registers keep their values. */
    method LoadRegs(x: uint8)
      requires Valid() && x as int < NVRegs && regs.i as int + x as int < RamSize
      modifies this
      ensures Valid()
      ensures regs == old(regs).(vx := ram.mem[old(regs.i) as int..old(regs.i) as int + x as int + 1] + old(regs.vx)[x as int + 1..])
    {
      var k := 0;
      while k <= x as int
        invariant 0 <= k <= x as int + 1
        invariant Valid() && regs == old(regs).(vx := regs.vx)
        invariant forall j :: 0 <= j < NVRegs ==>
                    regs.vx[j] == if j < k then ram.mem[regs.i as int + j] else old(regs.vx[j])
      {
        var addr: uint32 := regs.i as uint32 + k as uint32;
        regs := regs.(vx := regs.vx[k := ram.ReadU8(addr)]);
        k := k + 1;
      }
      assert regs.vx == ram.mem[regs.i as int..regs.i as int + x as int + 1] + old(regs.vx)[x as int + 1..];
    }
  }
}
