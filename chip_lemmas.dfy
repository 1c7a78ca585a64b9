/** What one cycle, and a run of cycles, does to the machine. */
module ChipLemmas {
  import opened Arch
  import Ram
  import Regs
  import Instr
  import Profile
  import Framebuffer
  import opened ChipSpec

  /** The word at PC is `w`, both of its bytes in RAM. */
  predicate Fetches(s: ChipState, w: uint16) {
    && s.Valid()
    && s.regs.pc as int + 1 < RamSize
    && Ram.FromBeBytes(s.mem[s.regs.pc], s.mem[s.regs.pc + 1]) == w
  }

  /**
   * The words the interpreter executes, read off the word itself: its top
   * nibble, its low nibble and its low byte.
   */
  predicate Defined(w: uint16) {
    var c, n, nn := w / 0x1000, w % 0x10, w % 0x100;
    || w == 0x00E0 || w == 0x00EE
    || c == 0x1 || c == 0x2 || c == 0x3 || c == 0x4 || c == 0x6 || c == 0x7
    || c == 0xA || c == 0xB || c == 0xC || c == 0xD
    || ((c == 0x5 || c == 0x9) && n == 0)
    || (c == 0x8 && (n <= 0x7 || n == 0xE))
    || (c == 0xE && (nn == 0x9E || nn == 0xA1))
    || (c == 0xF && (nn == 0x07 || nn == 0x0A || nn == 0x15 || nn == 0x18 || nn == 0x1E
                     || nn == 0x29 || nn == 0x33 || nn == 0x55 || nn == 0x65))
  }

  /** The fetch step: PC advances by 2 before the decoded word runs. */
  lemma FetchAdvances(s: ChipState, p: Profile.Profile, rnd: uint8, w: uint16)
    requires Fetches(s, w)
    ensures Step(s, p, rnd) == Execute(s.WithPc(s.regs.pc + 2), p, rnd, Instr.New(w))
  {
    assert Ram.FromBeBytes(s.mem[s.regs.pc], s.mem[s.regs.pc + 1]) == w;
  }

  /** With PC on the last byte of RAM or past it there is no whole word to fetch: the cycle is a fault. */
  lemma FetchPastEnd(s: ChipState, p: Profile.Profile, rnd: uint8)
    requires s.Valid()
    ensures s.regs.pc as int + 1 >= RamSize ==> Step(s, p, rnd) == Err(AddressOutOfRange)
  {
  }

  /** A cycle reports an unknown opcode exactly for the words no arm matches, and names the word. */
  lemma UnknownIffUndefined(s: ChipState, p: Profile.Profile, rnd: uint8, w: uint16)
    requires Fetches(s, w)
    ensures Step(s, p, rnd).Err? && Step(s, p, rnd).fault.UnknownOpcode? <==> !Defined(w)
    ensures !Defined(w) ==> Step(s, p, rnd) == Err(UnknownOpcode(w))
  {
    var ins := Instr.New(w);
    var t := s.WithPc(s.regs.pc + 2);
    Instr.Fields(w);
    FetchAdvances(s, p, rnd, w);
    if ins.c == 0x0 {
      assert Step(s, p, rnd) == ExecSystem(t, ins);
    } else if ins.c == 0x8 {
      assert Step(s, p, rnd) == ExecAlu(t, p, ins);
    } else if ins.c == 0xE {
      assert Step(s, p, rnd) == ExecKeys(t, ins);
    } else if ins.c == 0xF {
      assert Step(s, p, rnd) == ExecMisc(t, p, ins);
    }
  }

  /**
   * Every instruction that is not a jump, a call, a return, a skip or the
   * key wait ends, when it completes, at the word after it.
   */
  lemma StraightLineAdvances(s: ChipState, p: Profile.Profile, rnd: uint8, w: uint16)
    requires Fetches(s, w)
    requires var ins := Instr.New(w);
             || w == 0x00E0
             || ins.c == 0x6 || ins.c == 0x7 || ins.c == 0x8 || ins.c == 0xA || ins.c == 0xC || ins.c == 0xD
             || (ins.c == 0xF && ins.nn != 0x0A)
    ensures Step(s, p, rnd).Ok? ==> Step(s, p, rnd).value.regs.pc as int == s.regs.pc as int + 2
  {
    var ins := Instr.New(w);
    var t := s.WithPc(s.regs.pc + 2);
    if ins.c == 0x8 {
      assert Step(s, p, rnd) == ExecAlu(t, p, ins);
    } else if ins.c == 0xD {
      assert Step(s, p, rnd) == Draw(t, ins);
    } else if ins.c == 0xF {
      assert Step(s, p, rnd) == ExecMisc(t, p, ins);
    }
  }

  /** JP nnn lands on nnn; JP V0, nnn lands on V0 + nnn; nothing else changes. */
  lemma JumpTargets(s: ChipState, p: Profile.Profile, rnd: uint8, w: uint16)
    requires Fetches(s, w)
    ensures Instr.New(w).c == 0x1 ==> Step(s, p, rnd) == Ok(s.WithPc(w % 0x1000))
    ensures Instr.New(w).c == 0xB ==>
              Step(s, p, rnd).Ok? && Step(s, p, rnd).value == s.WithPc(Step(s, p, rnd).value.regs.pc)
              && Step(s, p, rnd).value.regs.pc as int == s.V(0) as int + w as int % 0x1000
  {
  }

  /**
   * The skips: PC ends 4 past the skip exactly when its condition holds and
   * 2 past it otherwise; nothing but PC changes.
   */
  lemma SkipLands(s: ChipState, p: Profile.Profile, rnd: uint8, w: uint16)
    requires Fetches(s, w)
    ensures var ins, pc := Instr.New(w), s.regs.pc as int;
            var vx, vy := s.V(ins.x as int), s.V(ins.y as int);
            && (ins.c == 0x3 ==> Step(s, p, rnd) == Ok(s.WithPc((if vx == ins.nn then pc + 4 else pc + 2) as uint16)))
            && (ins.c == 0x4 ==> Step(s, p, rnd) == Ok(s.WithPc((if vx != ins.nn then pc + 4 else pc + 2) as uint16)))
            && (ins.c == 0x5 && ins.n == 0 ==> Step(s, p, rnd) == Ok(s.WithPc((if vx == vy then pc + 4 else pc + 2) as uint16)))
            && (ins.c == 0x9 && ins.n == 0 ==> Step(s, p, rnd) == Ok(s.WithPc((if vx != vy then pc + 4 else pc + 2) as uint16)))
  {
  }

  /** SKP and SKNP: a key number of 16 or more is a fault; otherwise PC ends 4 past the skip iff its condition holds. */
  lemma KeySkipLands(s: ChipState, p: Profile.Profile, rnd: uint8, w: uint16)
    requires Fetches(s, w) && Instr.New(w).c == 0xE
    ensures var ins, pc := Instr.New(w), s.regs.pc as int;
            var key := s.V(ins.x as int) as int;
            && (ins.nn == 0x9E || ins.nn == 0xA1 ==> (Step(s, p, rnd) == Err(KeyOutOfRange) <==> key >= NKeys))
            && (ins.nn == 0x9E && key < NKeys ==>
                  Step(s, p, rnd) == Ok(s.WithPc((if s.keys[key] then pc + 4 else pc + 2) as uint16)))
            && (ins.nn == 0xA1 && key < NKeys ==>
                  Step(s, p, rnd) == Ok(s.WithPc((if !s.keys[key] then pc + 4 else pc + 2) as uint16)))
  {
    var ins := Instr.New(w);
    FetchAdvances(s, p, rnd, w);
    assert Execute(s.WithPc(s.regs.pc + 2), p, rnd, ins) == ExecKeys(s.WithPc(s.regs.pc + 2), ins);
  }

  /**
   * The result of a register instruction: only the registers and PC change,
   * PC by 2, and the registers outside `touched` keep their values.
   */
  predicate RegsOnly(s: ChipState, r: Result<ChipState>, touched: set<int>)
    requires s.Valid()
  {
    && r.Ok? && r.value.Valid()
    && r.value == s.(regs := r.value.regs)
    && r.value.regs == s.regs.(vx := r.value.regs.vx, pc := r.value.regs.pc)
    && r.value.regs.pc as int == s.regs.pc as int + 2
    && forall j :: 0 <= j < NVRegs && j !in touched ==> r.value.V(j) == s.V(j)
  }

  /** 7xnn adds modulo 256 and leaves VF alone. */
  lemma AddImmediateWraps(s: ChipState, p: Profile.Profile, rnd: uint8, w: uint16)
    requires Fetches(s, w) && Instr.New(w).c == 0x7
    ensures var ins := Instr.New(w);
            && RegsOnly(s, Step(s, p, rnd), {ins.x as int})
            && Step(s, p, rnd).value.V(ins.x as int) as int == (s.V(ins.x as int) as int + ins.nn as int) % 256
  {
  }

  /**
   * 8xy4: VF is the carry, written after the sum, so for x other than F the
   * pair (VF, Vx) holds the full nine-bit sum.
   */
  lemma AddCarry(s: ChipState, p: Profile.Profile, rnd: uint8, w: uint16)
    requires Fetches(s, w) && Instr.New(w).c == 0x8 && Instr.New(w).n == 0x4
    ensures var ins := Instr.New(w);
            var x, y := ins.x as int, ins.y as int;
            var t := Step(s, p, rnd).value;
            && RegsOnly(s, Step(s, p, rnd), {x, 0xF})
            && (t.V(0xF) == 1 <==> s.V(x) as int + s.V(y) as int > 255)
            && t.V(0xF) <= 1
            && (x != 0xF ==> 256 * t.V(0xF) as int + t.V(x) as int == s.V(x) as int + s.V(y) as int)
  {
    var ins := Instr.New(w);
    FetchAdvances(s, p, rnd, w);
    assert Execute(s.WithPc(s.regs.pc + 2), p, rnd, ins) == ExecAlu(s.WithPc(s.regs.pc + 2), p, ins);
  }

  /**
   * 8xy5 and 8xy7: VF is 1 exactly when there is no borrow, written after
   * the difference, so for x other than F the difference is Vx - 256 * (1 - VF).
   */
  lemma SubBorrow(s: ChipState, p: Profile.Profile, rnd: uint8, w: uint16)
    requires Fetches(s, w) && Instr.New(w).c == 0x8 && (Instr.New(w).n == 0x5 || Instr.New(w).n == 0x7)
    ensures var ins := Instr.New(w);
            var x, y := ins.x as int, ins.y as int;
            var (a, b) := if ins.n == 0x5 then (s.V(x) as int, s.V(y) as int) else (s.V(y) as int, s.V(x) as int);
            var t := Step(s, p, rnd).value;
            && RegsOnly(s, Step(s, p, rnd), {x, 0xF})
            && (t.V(0xF) == 1 <==> a >= b)
            && t.V(0xF) <= 1
            && (x != 0xF ==> t.V(x) as int - 256 * (1 - t.V(0xF) as int) == a - b)
  {
    var ins := Instr.New(w);
    FetchAdvances(s, p, rnd, w);
    assert Execute(s.WithPc(s.regs.pc + 2), p, rnd, ins) == ExecAlu(s.WithPc(s.regs.pc + 2), p, ins);
  }

  /**
   * 8xy6: the shifted value is Vy when the profile says so and Vx
   * otherwise. For x other than F, VF gets its bit 0 and Vx the rest, so
   * the two put back together give the value. For x = F the shift of VF
   * comes last and leaves 0.
   */
  lemma ShiftRight(s: ChipState, p: Profile.Profile, rnd: uint8, w: uint16)
    requires Fetches(s, w) && Instr.New(w).c == 0x8 && Instr.New(w).n == 0x6
    ensures var ins := Instr.New(w);
            var x, y := ins.x as int, ins.y as int;
            var v := if p.op8xy6UseVy then s.V(y) else s.V(x);
            var t := Step(s, p, rnd).value;
            && RegsOnly(s, Step(s, p, rnd), {x, 0xF})
            && (x != 0xF ==> t.V(0xF) as int == v as int % 2 && 2 * t.V(x) as int + t.V(0xF) as int == v as int)
            && (x == 0xF ==> t.V(0xF) == 0)
  {
    var ins := Instr.New(w);
    FetchAdvances(s, p, rnd, w);
    assert Execute(s.WithPc(s.regs.pc + 2), p, rnd, ins) == ExecAlu(s.WithPc(s.regs.pc + 2), p, ins);
  }

  /**
   * 8xyE: the shifted value is Vy when the profile says so and Vx
   * otherwise. For x other than F, VF gets its bit 7 and Vx the value
   * doubled modulo 256. For x = F the shift of VF comes last, leaving twice
   * the bit.
   */
  lemma ShiftLeft(s: ChipState, p: Profile.Profile, rnd: uint8, w: uint16)
    requires Fetches(s, w) && Instr.New(w).c == 0x8 && Instr.New(w).n == 0xE
    ensures var ins := Instr.New(w);
            var x, y := ins.x as int, ins.y as int;
            var v := if p.op8xyEUseVy then s.V(y) else s.V(x);
            var t := Step(s, p, rnd).value;
            && RegsOnly(s, Step(s, p, rnd), {x, 0xF})
            && (x != 0xF ==> t.V(0xF) as int == v as int / 128 && t.V(x) as int + 256 * t.V(0xF) as int == 2 * v as int)
            && (x == 0xF ==> t.V(0xF) as int == 2 * (v as int / 128))
  {
    var ins := Instr.New(w);
    var x := ins.x as int;
    var v := if p.op8xyEUseVy then s.V(ins.y as int) else s.V(x);
    ShiftLeftStep(s, p, rnd, w);
    ShiftLeftBits(v);
  }

  /** The bit 8xyE shifts out of `v` and the wrapped double, put back together, give twice `v`. */
  lemma ShiftLeftBits(v: uint8)
    ensures var bit := if v >= 0x80 then 1 else 0;
            && bit == v as int / 128
            && (2 * v as int) % 0x100 + 256 * bit == 2 * v as int
            && (2 * bit) % 0x100 == 2 * bit
  {
  }

  /** The state 8xyE leaves: Vx gets the shifted value, then VF the bit out, then Vx is shifted. */
  lemma ShiftLeftStep(s: ChipState, p: Profile.Profile, rnd: uint8, w: uint16)
    requires Fetches(s, w) && Instr.New(w).c == 0x8 && Instr.New(w).n == 0xE
    ensures var ins := Instr.New(w);
            var x := ins.x as int;
            var v := if p.op8xyEUseVy then s.V(ins.y as int) else s.V(x);
            var u := s.WithPc(s.regs.pc + 2).SetV(x, v);
            var u' := u.SetV(0xF, if v >= 0x80 then 1 else 0);
            Step(s, p, rnd) == Ok(u'.SetV(x, ((2 * u'.V(x) as int) % 0x100) as uint8))
  {
    var ins := Instr.New(w);
    var x := ins.x as int;
    var t := s.WithPc(s.regs.pc + 2);
    FetchAdvances(s, p, rnd, w);
    assert Execute(t, p, rnd, ins) == ExecAlu(t, p, ins);
    if !p.op8xyEUseVy {
      assert t.SetV(x, t.V(x)) == t;
    }
  }

  /**
   * With the profile's copy switched off, the shifts never read Vy: giving
   * Vy another value changes the outcome in Vy alone.
   */
  lemma ShiftIgnoresVy(s: ChipState, p: Profile.Profile, rnd: uint8, w: uint16, v: uint8)
    requires Fetches(s, w) && Instr.New(w).c == 0x8
    requires (Instr.New(w).n == 0x6 && !p.op8xy6UseVy) || (Instr.New(w).n == 0xE && !p.op8xyEUseVy)
    requires var y := Instr.New(w).y as int; y != Instr.New(w).x as int && y != 0xF
    ensures var y := Instr.New(w).y as int;
            Step(s.SetV(y, v), p, rnd) == Ok(Step(s, p, rnd).value.SetV(y, v))
  {
    var ins := Instr.New(w);
    var y := ins.y as int;
    var s' := s.SetV(y, v);
    assert Fetches(s', w);
    FetchAdvances(s, p, rnd, w);
    assert Execute(s.WithPc(s.regs.pc + 2), p, rnd, ins) == ExecAlu(s.WithPc(s.regs.pc + 2), p, ins);
    assert Step(s', p, rnd) == ExecAlu(s'.WithPc(s'.regs.pc + 2), p, ins);
    var t, t' := Step(s, p, rnd).value, Step(s', p, rnd).value;
    assert t'.regs.vx == t.regs.vx[y := v] by {
      forall j | 0 <= j < NVRegs
        ensures t'.regs.vx[j] == t.regs.vx[y := v][j]
      {
      }
    }
  }

  /**
   * RET: an empty stack is a fault, and nothing else is; otherwise the stack
   * pointer drops by one and PC is the return address it uncovers.
   */
  lemma RetPops(s: ChipState, p: Profile.Profile, rnd: uint8)
    requires Fetches(s, 0x00EE)
    ensures Step(s, p, rnd) == Err(StackUnderflow) <==> s.regs.sp == 0
    ensures s.regs.sp > 0 ==>
              Step(s, p, rnd) == Ok(s.(regs := s.regs.(sp := s.regs.sp - 1, pc := s.stack[s.regs.sp - 1])))
  {
    var ins := Instr.New(0x00EE);
    FetchAdvances(s, p, rnd, 0x00EE);
    assert Execute(s.WithPc(s.regs.pc + 2), p, rnd, ins) == ExecSystem(s.WithPc(s.regs.pc + 2), ins);
  }

  /**
   * CALL: a full stack is a fault, and nothing else is; otherwise the
   * address of the word after the CALL is pushed and PC jumps to nnn.
   */
  lemma CallPushes(s: ChipState, p: Profile.Profile, rnd: uint8, w: uint16)
    requires Fetches(s, w) && Instr.New(w).c == 0x2
    ensures Step(s, p, rnd) == Err(StackOverflow) <==> s.regs.sp as int == StackSize
    ensures s.regs.sp as int < StackSize ==>
              Step(s, p, rnd) == Ok(s.(stack := s.stack[s.regs.sp := s.regs.pc + 2],
                                      regs := s.regs.(sp := s.regs.sp + 1, pc := Instr.New(w).nnn)))
  {
    var ins := Instr.New(w);
    FetchAdvances(s, p, rnd, w);
    assert Execute(s.WithPc(s.regs.pc + 2), p, rnd, ins) == Call(s.WithPc(s.regs.pc + 2), ins);
  }

  /**
   * CALL followed by the RET at its target returns to the word after the
   * CALL with the stack pointer as before; RAM, keys and screen are untouched.
   */
  lemma CallThenRet(s: ChipState, p: Profile.Profile, rnd1: uint8, rnd2: uint8, w: uint16)
    requires Fetches(s, w) && Instr.New(w).c == 0x2
    requires s.regs.sp as int < StackSize
    requires var target := Instr.New(w).nnn;
             target as int + 1 < RamSize && s.mem[target] == 0x00 && s.mem[target + 1] == 0xEE
    ensures Step(s, p, rnd1).Ok?
    ensures var t := Step(s, p, rnd1).value;
            && Step(t, p, rnd2).Ok?
            && var u := Step(t, p, rnd2).value;
               && u.regs == s.regs.(pc := s.regs.pc + 2)
               && u.stack[s.regs.sp] == s.regs.pc + 2
               && u.mem == s.mem && u.keys == s.keys && u.frame == s.frame
  {
    var ins := Instr.New(w);
    var ret := s.regs.pc + 2;
    var t := s.(stack := s.stack[s.regs.sp := ret], regs := s.regs.(sp := s.regs.sp + 1, pc := ins.nnn));
    assert Step(s, p, rnd1) == Call(s.WithPc(ret), ins);
    assert Step(s, p, rnd1) == Ok(t);
    assert Fetches(t, 0x00EE);
    var u := s.(stack := t.stack, regs := s.regs.(pc := ret));
    assert Step(t, p, rnd2) == ExecSystem(t.WithPc(t.regs.pc + 2), Instr.New(0x00EE));
    assert Step(t, p, rnd2) == Ok(u);
  }

  /** Fx0A with no key held: the cycle leaves the machine exactly as it found it. */
  lemma WaitKeyBlocks(s: ChipState, p: Profile.Profile, rnd: uint8, w: uint16)
    requires Fetches(s, w) && Instr.New(w).c == 0xF && Instr.New(w).nn == 0x0A
    requires forall k :: 0 <= k < NKeys ==> !s.keys[k]
    ensures Step(s, p, rnd) == Ok(s)
  {
    var ins := Instr.New(w);
    FetchAdvances(s, p, rnd, w);
    assert Execute(s.WithPc(s.regs.pc + 2), p, rnd, ins) == ExecMisc(s.WithPc(s.regs.pc + 2), p, ins);
  }

  /** Fx0A with some key held: Vx gets the lowest held key and PC moves on. */
  lemma WaitKeyTakesLowest(s: ChipState, p: Profile.Profile, rnd: uint8, w: uint16, k: nat)
    requires Fetches(s, w) && Instr.New(w).c == 0xF && Instr.New(w).nn == 0x0A
    requires k < NKeys && s.keys[k] && forall j :: 0 <= j < k ==> !s.keys[j]
    ensures Step(s, p, rnd) == Ok(s.WithPc(s.regs.pc + 2).SetV(Instr.New(w).x as int, k as uint8))
  {
    var ins := Instr.New(w);
    FetchAdvances(s, p, rnd, w);
    assert Execute(s.WithPc(s.regs.pc + 2), p, rnd, ins) == ExecMisc(s.WithPc(s.regs.pc + 2), p, ins);
  }

  /** Cycles one after another, the `k`-th using the random byte `rnds[k]`; a fault ends the run. */
  function Run(s: ChipState, p: Profile.Profile, rnds: seq<uint8>): (r: Result<ChipState>)
    requires s.Valid()
    ensures r.Ok? ==> r.value.Valid()
    decreases |rnds|
  {
    if |rnds| == 0 then Ok(s)
    else match Step(s, p, rnds[0])
      case Err(f) => Err(f)
      case Ok(t) => Run(t, p, rnds[1..])
  }

  /** Fx0A with no key held: however many cycles run, the machine stays as it was. */
  lemma {:induction false} WaitKeyRun(s: ChipState, p: Profile.Profile, rnds: seq<uint8>, w: uint16)
    requires Fetches(s, w) && Instr.New(w).c == 0xF && Instr.New(w).nn == 0x0A
    requires forall k :: 0 <= k < NKeys ==> !s.keys[k]
    ensures Run(s, p, rnds) == Ok(s)
    decreases |rnds|
  {
    if |rnds| > 0 {
      WaitKeyBlocks(s, p, rnds[0], w);
      WaitKeyRun(s, p, rnds[1..], w);
    }
  }

  /**
   * Fx33: the three bytes from I are decimal digits that spell Vx; no other
   * byte of RAM and no register but PC changes.
   */
  lemma BcdStores(s: ChipState, p: Profile.Profile, rnd: uint8, w: uint16)
    requires Fetches(s, w) && Instr.New(w).c == 0xF && Instr.New(w).nn == 0x33
    requires s.regs.i as int + 2 < RamSize
    ensures Step(s, p, rnd).Ok?
    ensures var t, i, v := Step(s, p, rnd).value, s.regs.i as int, s.V(Instr.New(w).x as int);
            && t.mem[i] <= 9 && t.mem[i + 1] <= 9 && t.mem[i + 2] <= 9
            && 100 * t.mem[i] as int + 10 * t.mem[i + 1] as int + t.mem[i + 2] as int == v as int
            && (forall a :: 0 <= a < RamSize && !(i <= a < i + 3) ==> t.mem[a] == s.mem[a])
            && t == s.WithPc(s.regs.pc + 2).(mem := t.mem)
  {
    var ins := Instr.New(w);
    FetchAdvances(s, p, rnd, w);
    assert Execute(s.WithPc(s.regs.pc + 2), p, rnd, ins) == ExecMisc(s.WithPc(s.regs.pc + 2), p, ins);
  }

  /**
   * Fx55: V0 to Vx inclusive land at I to I + x; RAM outside that range
   * and every register keep their values; I moves past the block exactly
   * when the profile says so.
   */
  lemma StoreRegsCopies(s: ChipState, p: Profile.Profile, rnd: uint8, w: uint16)
    requires Fetches(s, w) && Instr.New(w).c == 0xF && Instr.New(w).nn == 0x55
    requires s.regs.i as int + Instr.New(w).x as int < RamSize
    ensures Step(s, p, rnd).Ok?
    ensures var t, i, x := Step(s, p, rnd).value, s.regs.i as int, Instr.New(w).x as int;
            && (forall k :: 0 <= k <= x ==> t.mem[i + k] == s.V(k))
            && (forall a :: 0 <= a < RamSize && !(i <= a <= i + x) ==> t.mem[a] == s.mem[a])
            && t.regs.vx == s.regs.vx
            && t.regs.i as int == (if p.opFx55StoreI then i + x + 1 else i)
            && t == s.(mem := t.mem, regs := s.regs.(pc := s.regs.pc + 2, i := t.regs.i))
  {
    var ins := Instr.New(w);
    FetchAdvances(s, p, rnd, w);
    assert Execute(s.WithPc(s.regs.pc + 2), p, rnd, ins) == ExecMisc(s.WithPc(s.regs.pc + 2), p, ins);
  }

  /**
   * Fx65: V0 to Vx inclusive are read from I to I + x; the registers above
   * x and RAM keep their values; I moves past the block exactly when the
   * profile says so.
   */
  lemma LoadRegsCopies(s: ChipState, p: Profile.Profile, rnd: uint8, w: uint16)
    requires Fetches(s, w) && Instr.New(w).c == 0xF && Instr.New(w).nn == 0x65
    requires s.regs.i as int + Instr.New(w).x as int < RamSize
    ensures Step(s, p, rnd).Ok?
    ensures var t, i, x := Step(s, p, rnd).value, s.regs.i as int, Instr.New(w).x as int;
            && (forall k :: 0 <= k <= x ==> t.V(k) == s.mem[i + k])
            && (forall k :: x < k < NVRegs ==> t.V(k) == s.V(k))
            && t.mem == s.mem
            && t.regs.i as int == (if p.opFx65StoreI then i + x + 1 else i)
            && t == s.(regs := s.regs.(vx := t.regs.vx, pc := s.regs.pc + 2, i := t.regs.i))
  {
    var ins := Instr.New(w);
    FetchAdvances(s, p, rnd, w);
    assert Execute(s.WithPc(s.regs.pc + 2), p, rnd, ins) == ExecMisc(s.WithPc(s.regs.pc + 2), p, ins);
  }

  /**
   * Storing V0 to Vx and loading them back from the same I, with I left in
   * place, gives back the registers.
   */
  lemma StoreThenLoad(s: ChipState, p: Profile.Profile, rnd: uint8, x: uint8)
    requires s.Valid() && x < 16 && 2 <= s.regs.pc as int <= RamSize && s.regs.i as int + x as int < RamSize
    requires !p.opFx55StoreI
    ensures var store := Instr.New(Instr.Encode(0xF, x, 0x5, 0x5));
            var load := Instr.New(Instr.Encode(0xF, x, 0x6, 0x5));
            && Execute(s, p, rnd, store).Ok?
            && var t := Execute(s, p, rnd, store).value;
               && Execute(t, p, rnd, load).Ok?
               && Execute(t, p, rnd, load).value.regs.vx == s.regs.vx
  {
    var store := Instr.New(Instr.Encode(0xF, x, 0x5, 0x5));
    var load := Instr.New(Instr.Encode(0xF, x, 0x6, 0x5));
    Instr.DecodeEncode(0xF, x, 0x5, 0x5);
    Instr.DecodeEncode(0xF, x, 0x6, 0x5);
    assert store.c == 0xF && store.x == x && store.nn == 0x55;
    assert load.c == 0xF && load.x == x && load.nn == 0x65;
    var t := Execute(s, p, rnd, store).value;
    var u := Execute(t, p, rnd, load).value;
    assert u.regs.vx == s.regs.vx by {
      forall k | 0 <= k < NVRegs
        ensures u.regs.vx[k] == s.regs.vx[k]
      {
        if k <= x as int {
          assert u.regs.vx[k] == t.mem[s.regs.i as int + k];
        }
      }
    }
  }

  /** Fx29: a digit above F is a fault; otherwise I gets the address of the digit's sprite and nothing else but PC changes. */
  lemma FontLookup(s: ChipState, p: Profile.Profile, rnd: uint8, w: uint16)
    requires Fetches(s, w) && Instr.New(w).c == 0xF && Instr.New(w).nn == 0x29
    ensures var d := s.V(Instr.New(w).x as int);
            && (d as int >= NSprites ==> Step(s, p, rnd) == Err(DigitOutOfRange))
            && (d as int < NSprites ==> Step(s, p, rnd) == Ok(s.WithPc(s.regs.pc + 2).WithI(s.spriteAddr[d])))
  {
    var ins := Instr.New(w);
    FetchAdvances(s, p, rnd, w);
    assert Execute(s.WithPc(s.regs.pc + 2), p, rnd, ins) == ExecMisc(s.WithPc(s.regs.pc + 2), p, ins);
  }

  /**
   * Fx1E: I + Vx beyond 16 bits is a fault, and nothing else is; otherwise
   * I becomes the sum, which may lie past the end of RAM.
   */
  lemma AddIndex(s: ChipState, p: Profile.Profile, rnd: uint8, w: uint16)
    requires Fetches(s, w) && Instr.New(w).c == 0xF && Instr.New(w).nn == 0x1E
    ensures var sum := s.regs.i as int + s.V(Instr.New(w).x as int) as int;
            && (Step(s, p, rnd) == Err(IndexOverflow) <==> sum > 0xFFFF)
            && (sum <= 0xFFFF ==> Step(s, p, rnd) == Ok(s.WithPc(s.regs.pc + 2).WithI(sum as uint16)))
  {
    var ins := Instr.New(w);
    FetchAdvances(s, p, rnd, w);
    assert Execute(s.WithPc(s.regs.pc + 2), p, rnd, ins) == ExecMisc(s.WithPc(s.regs.pc + 2), p, ins);
  }

  /**
   * Fx33, Fx55 and Fx65 fault exactly when the block they touch, three
   * bytes or x + 1 bytes from I, runs past the end of RAM.
   */
  lemma BlockInRam(s: ChipState, p: Profile.Profile, rnd: uint8, w: uint16)
    requires Fetches(s, w) && Instr.New(w).c == 0xF
    ensures var ins, i := Instr.New(w), s.regs.i as int;
            && (ins.nn == 0x33 ==> (Step(s, p, rnd) == Err(AddressOutOfRange) <==> i + 2 >= RamSize))
            && (ins.nn == 0x55 || ins.nn == 0x65 ==>
                  (Step(s, p, rnd) == Err(AddressOutOfRange) <==> i + ins.x as int >= RamSize))
  {
    var ins := Instr.New(w);
    FetchAdvances(s, p, rnd, w);
    assert Execute(s.WithPc(s.regs.pc + 2), p, rnd, ins) == ExecMisc(s.WithPc(s.regs.pc + 2), p, ins);
  }

  /** In the machine `new_seed` builds, the address recorded for digit `d` holds the five rows of its sprite. */
  lemma InitialSprites(d: int)
    requires 0 <= d < NSprites
    ensures Initial().spriteAddr[d] as int == 5 * d
    ensures Initial().mem[5 * d..5 * d + 5] == Sprite(d)
  {
    var m := Initial().mem;
    assert m[5 * d..5 * d + 5] == m[..5 * NSprites][5 * d..5 * d + 5];
  }

  /** `k` runs of `cycle_timers`. */
  function TickN(r: Regs.RegMap, k: nat): Regs.RegMap {
    if k == 0 then r else Tick(TickN(r, k - 1))
  }

  /**
   * The timers count down by one per tick and stop at zero; nothing else in
   * the registers changes.
   */
  lemma {:induction false} TimersCountDown(r: Regs.RegMap, k: nat)
    ensures TickN(r, k).dt as int == if r.dt as int > k then r.dt as int - k else 0
    ensures TickN(r, k).st as int == if r.st as int > k then r.st as int - k else 0
    ensures TickN(r, k) == r.(dt := TickN(r, k).dt, st := TickN(r, k).st)
  {
    if k > 0 {
      TimersCountDown(r, k - 1);
    }
  }

  /** The sound stays on for exactly as many ticks as the sound timer's value. */
  lemma SoundLasts(r: Regs.RegMap, k: nat)
    ensures TickN(r, k).st > 0 <==> k < r.st as int
  {
    TimersCountDown(r, k);
  }

  /**
   * DRW: a sprite running past the end of RAM is a fault, and nothing else
   * is; otherwise the sprite's bytes from I are drawn at (Vx, Vy) wrapped to
   * the screen, and VF tells whether a lit pixel was turned off.
   */
  lemma DrawLands(s: ChipState, p: Profile.Profile, rnd: uint8, w: uint16)
    requires Fetches(s, w) && Instr.New(w).c == 0xD
    ensures var ins, i := Instr.New(w), s.regs.i as int;
            && (Step(s, p, rnd) == Err(AddressOutOfRange) <==> i + ins.n as int > RamSize)
            && (i + ins.n as int <= RamSize ==>
                  var sprite := s.mem[i..i + ins.n as int];
                  var sx := s.V(ins.x as int) as int % DisplayWidth;
                  var sy := s.V(ins.y as int) as int % DisplayHeight;
                  var erased := Framebuffer.Erases(s.frame, sprite, sx, sy);
                  Step(s, p, rnd) ==
                    Ok(s.WithPc(s.regs.pc + 2).(frame := Framebuffer.Drawn(s.frame, sprite, sx, sy))
                        .SetV(0xF, if erased then 1 else 0)))
  {
    var ins := Instr.New(w);
    FetchAdvances(s, p, rnd, w);
    assert Execute(s.WithPc(s.regs.pc + 2), p, rnd, ins) == Draw(s.WithPc(s.regs.pc + 2), ins);
  }

  /** Two draws of the same sprite at the same place leave the screen as it was. */
  lemma DrawTwiceRestores(s: ChipState, p: Profile.Profile, rnd: uint8, ins: Instr.Instr)
    requires s.Valid() && Instr.Decoded(ins) && 2 <= s.regs.pc as int <= RamSize
    requires ins.c == 0xD && ins.x != 0xF && ins.y != 0xF
    requires s.regs.i as int + ins.n as int <= RamSize
    ensures Execute(s, p, rnd, ins).Ok?
    ensures var t := Execute(s, p, rnd, ins).value;
            Execute(t, p, rnd, ins).Ok? && Execute(t, p, rnd, ins).value.frame == s.frame
  {
    var t := Execute(s, p, rnd, ins).value;
    var i := s.regs.i as int;
    var sprite := s.mem[i..i + ins.n as int];
    var sx := s.V(ins.x as int) as int % DisplayWidth;
    var sy := s.V(ins.y as int) as int % DisplayHeight;
    assert t.frame == Framebuffer.Drawn(s.frame, sprite, sx, sy);
    assert t.V(ins.x as int) == s.V(ins.x as int) && t.V(ins.y as int) == s.V(ins.y as int);
    Framebuffer.DrawTwiceRestores(s.frame, sprite, sx, sy);
  }
}
