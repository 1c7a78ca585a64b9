/**
 * The meaning of one interpreter cycle, as a function on a snapshot of the
 * machine. `Chip.Chip.Cycle` is proved to do what `Step` says.
 */
module ChipSpec {
  import opened Arch
  import Ram
  import Regs
  import Instr
  import Profile
  import Framebuffer
  import Util

  /** Why a cycle cannot complete: each case is a panic of the source. */
  datatype Fault =
    | UnknownOpcode(opcode: uint16)
    | StackUnderflow
    | StackOverflow
    | AddressOutOfRange
    | KeyOutOfRange
    | DigitOutOfRange
    | IndexOverflow

  datatype Result<T> = Ok(value: T) | Err(fault: Fault)

  datatype Option<T> = None | Some(value: T)

  /** What a cycle reports to its caller. */
  datatype Outcome = Pass | Fail(fault: Fault)

  /**
   * A snapshot of the machine: RAM, the digit-sprite address table, the
   * registers, the call stack, the key flags and the pixel grid. The stack
   * pointer never passes the end of the stack: CALL refuses a full stack.
   */
  datatype ChipState = ChipState(
    mem: seq<uint8>,
    spriteAddr: seq<uint16>,
    regs: Regs.RegMap,
    stack: seq<uint16>,
    keys: seq<bool>,
    frame: Framebuffer.Frame)
  {
    predicate Valid() {
      && |mem| == RamSize
      && |spriteAddr| == NSprites
      && |regs.vx| == NVRegs
      && |stack| == StackSize
      && regs.sp as int <= StackSize
      && |keys| == NKeys
      && Framebuffer.IsFrame(frame)
    }

    /** Register V`k`. */
    function V(k: int): uint8
      requires Valid() && 0 <= k < NVRegs
    {
      regs.vx[k]
    }

    function SetV(k: int, v: uint8): ChipState
      requires Valid() && 0 <= k < NVRegs
    {
      this.(regs := regs.(vx := regs.vx[k := v]))
    }

    function WithPc(pc: uint16): ChipState {
      this.(regs := regs.(pc := pc))
    }

    function WithI(i: uint16): ChipState {
      this.(regs := regs.(i := i))
    }
  }

  /** `r` is what the cycle reported, taking the machine from `before` to `after`, as `spec` says. */
  predicate Realises(r: Outcome, before: ChipState, after: ChipState, spec: Result<ChipState>) {
    match spec
    case Ok(t) => r == Pass && after == t
    case Err(f) => r == Fail(f) && after == before
  }

  /** The built-in hexadecimal digit sprites, five rows each, 0 to F, back to back. */
  const FontBytes: seq<uint8> := [
    0x60, 0x90, 0x90, 0x90, 0x60,  // 0
    0x20, 0x60, 0x20, 0x20, 0x70,  // 1
    0xF0, 0x10, 0xF0, 0x80, 0xF0,  // 2
    0xE0, 0x10, 0xE0, 0x10, 0xE0,  // 3
    0x90, 0x90, 0xF0, 0x10, 0x10,  // 4
    0xF0, 0x80, 0xE0, 0x10, 0xE0,  // 5
    0x70, 0x80, 0xE0, 0x90, 0xE0,  // 6
    0xF0, 0x10, 0x20, 0x40, 0x40,  // 7
    0x60, 0x90, 0x60, 0x90, 0x60,  // 8
    0x60, 0x90, 0x70, 0x10, 0xE0,  // 9
    0x60, 0x90, 0xF0, 0x90, 0x90,  // A
    0xE0, 0x90, 0xE0, 0x90, 0xE0,  // B
    0x70, 0x80, 0x80, 0x80, 0x70,  // C
    0xE0, 0x90, 0x90, 0x90, 0xE0,  // D
    0xF0, 0x80, 0xF0, 0x80, 0xF0,  // E
    0xF0, 0x80, 0xF0, 0x80, 0x80   // F
  ]

  /** The five rows of the sprite of digit `d`. */
  function Sprite(d: int): (rows: seq<uint8>)
    requires 0 <= d < NSprites
    ensures |rows| == 5
  {
    FontBytes[5 * d..5 * d + 5]
  }

  /**
   * The machine `new_seed` builds: the font at the bottom of RAM, sprite `d`
   * at address 5d, every register, stack slot and key cleared, the screen dark.
   */
  function Initial(): (s: ChipState)
    ensures s.Valid()
    ensures s.mem[..5 * NSprites] == FontBytes
    ensures forall a :: 5 * NSprites <= a < RamSize ==> s.mem[a] == 0
    ensures forall d :: 0 <= d < NSprites ==> s.spriteAddr[d] as int == 5 * d
    ensures s.regs == Regs.New()
    ensures s.stack == seq(StackSize, _ => 0)
    ensures s.keys == seq(NKeys, _ => false)
    ensures s.frame == Framebuffer.Blank()
  {
    ChipState(
      FontBytes + seq(RamSize - 5 * NSprites, _ => 0),
      seq(NSprites, d requires 0 <= d < NSprites => (5 * d) as uint16),
      Regs.New(),
      seq(StackSize, _ => 0),
      seq(NKeys, _ => false),
      Framebuffer.Blank())
  }

  /**
   * Loading sprite `i` at address 5i into a RAM image that holds the
   * sprites below `i` and zeros above extends the font by one sprite.
   */
  lemma FontLoaded(m: seq<uint8>, m': seq<uint8>, i: int)
    requires 0 <= i < NSprites && |m| == RamSize
    requires forall j :: 0 <= j < RamSize ==> m[j] == if j < 5 * i then FontBytes[j] else 0
    requires m' == Ram.Stored(m, 5 * i, Sprite(i))
    ensures forall j :: 0 <= j < RamSize ==> m'[j] == if j < 5 * (i + 1) then FontBytes[j] else 0
  {
  }

  /** A RAM image that holds the font at the bottom and zeros above it is the initial one. */
  lemma InitialMem(m: seq<uint8>)
    requires |m| == RamSize
    requires forall j :: 0 <= j < RamSize ==> m[j] == if j < 5 * NSprites then FontBytes[j] else 0
    ensures m == Initial().mem
  {
  }

  /**
   * One `cycle`: fetch the big-endian word at PC (both bytes must be in
   * RAM), advance PC by 2, then execute the decoded instruction. The byte
   * `rnd` is the generator's draw, used only by Cxnn.
   */
  function Step(s: ChipState, p: Profile.Profile, rnd: uint8): (r: Result<ChipState>)
    requires s.Valid()
    ensures r.Ok? ==> r.value.Valid()
  {
    if s.regs.pc as int + 1 >= RamSize then Err(AddressOutOfRange)
    else
      var word := Ram.FromBeBytes(s.mem[s.regs.pc], s.mem[s.regs.pc + 1]);
      Execute(s.WithPc(s.regs.pc + 2), p, rnd, Instr.New(word))
  }

  /** The execution of a decoded instruction once PC has been advanced past it. */
  function Execute(s: ChipState, p: Profile.Profile, rnd: uint8, ins: Instr.Instr): (r: Result<ChipState>)
    requires s.Valid() && Instr.Decoded(ins) && 2 <= s.regs.pc as int <= RamSize
    ensures r.Ok? ==> r.value.Valid()
  {
    var x, y := ins.x as int, ins.y as int;
    if ins.c == 0x0 then ExecSystem(s, ins)
    else if ins.c == 0x1 then Ok(s.WithPc(ins.nnn))
    else if ins.c == 0x2 then Call(s, ins)
    else if ins.c == 0x3 then Ok(SkipIf(s, s.V(x) == ins.nn))
    else if ins.c == 0x4 then Ok(SkipIf(s, s.V(x) != ins.nn))
    else if ins.c == 0x5 then
      if ins.n == 0 then Ok(SkipIf(s, s.V(x) == s.V(y))) else Err(UnknownOpcode(ins.opcode))
    else if ins.c == 0x6 then Ok(s.SetV(x, ins.nn))
    else if ins.c == 0x7 then Ok(s.SetV(x, ((s.V(x) as int + ins.nn as int) % 0x100) as uint8))
    else if ins.c == 0x8 then ExecAlu(s, p, ins)
    else if ins.c == 0x9 then
      if ins.n == 0 then Ok(SkipIf(s, s.V(x) != s.V(y))) else Err(UnknownOpcode(ins.opcode))
    else if ins.c == 0xA then Ok(s.WithI(ins.nnn))
    else if ins.c == 0xB then Ok(s.WithPc(s.V(0) as uint16 + ins.nnn))
    else if ins.c == 0xC then Ok(s.SetV(x, BitAnd(rnd, ins.nn)))
    else if ins.c == 0xD then Draw(s, ins)
    else if ins.c == 0xE then ExecKeys(s, ins)
    else ExecMisc(s, p, ins)
  }

  /** PC moves past the next instruction when `cond` holds. */
  function SkipIf(s: ChipState, cond: bool): ChipState
    requires s.regs.pc as int <= RamSize
  {
    if cond then s.WithPc(s.regs.pc + 2) else s
  }

  /** Class 0: CLS (00E0), RET (00EE); every other word of the class is unknown. */
  function ExecSystem(s: ChipState, ins: Instr.Instr): (r: Result<ChipState>)
    requires s.Valid()
    ensures r.Ok? ==> r.value.Valid()
  {
    if ins.opcode == 0x00E0 then Ok(s.(frame := Framebuffer.Blank()))
    else if ins.opcode == 0x00EE then
      if s.regs.sp == 0 then Err(StackUnderflow)
      else
        var sp := s.regs.sp - 1;
        Ok(s.(regs := s.regs.(sp := sp, pc := s.stack[sp])))
    else Err(UnknownOpcode(ins.opcode))
  }

  /** 2nnn: push the return address, then jump; the stack holds `StackSize` entries. */
  function Call(s: ChipState, ins: Instr.Instr): (r: Result<ChipState>)
    requires s.Valid()
    ensures r.Ok? ==> r.value.Valid()
  {
    if s.regs.sp as int >= StackSize then Err(StackOverflow)
    else
      Ok(s.(stack := s.stack[s.regs.sp := s.regs.pc],
            regs := s.regs.(sp := s.regs.sp + 1, pc := ins.nnn)))
  }

  /**
   * Class 8, register to register. ADD, SUB and SUBN write Vx and then the
   * flag VF. SHR and SHL may first copy Vy into Vx, then write into VF the
   * bit shifted out, then shift whatever Vx holds at that point.
   */
  function ExecAlu(s: ChipState, p: Profile.Profile, ins: Instr.Instr): (r: Result<ChipState>)
    requires s.Valid() && Instr.Decoded(ins)
    ensures r.Ok? ==> r.value.Valid()
  {
    var x, y := ins.x as int, ins.y as int;
    var vx, vy := s.V(x), s.V(y);
    if ins.n == 0x0 then Ok(s.SetV(x, vy))
    else if ins.n == 0x1 then Ok(s.SetV(x, BitOr(vx, vy)))
    else if ins.n == 0x2 then Ok(s.SetV(x, BitAnd(vx, vy)))
    else if ins.n == 0x3 then Ok(s.SetV(x, BitXor(vx, vy)))
    else if ins.n == 0x4 then
      var sum := vx as int + vy as int;
      Ok(s.SetV(x, (sum % 0x100) as uint8).SetV(0xF, if sum >= 0x100 then 1 else 0))
    else if ins.n == 0x5 then
      Ok(s.SetV(x, ((vx as int - vy as int) % 0x100) as uint8).SetV(0xF, if vx < vy then 0 else 1))
    else if ins.n == 0x6 then
      var t := if p.op8xy6UseVy then s.SetV(x, vy) else s;
      var u := t.SetV(0xF, t.V(x) % 2);
      Ok(u.SetV(x, u.V(x) / 2))
    else if ins.n == 0x7 then
      Ok(s.SetV(x, ((vy as int - vx as int) % 0x100) as uint8).SetV(0xF, if vy < vx then 0 else 1))
    else if ins.n == 0xE then
      var t := if p.op8xyEUseVy then s.SetV(x, vy) else s;
      var u := t.SetV(0xF, if t.V(x) >= 0x80 then 1 else 0);
      Ok(u.SetV(x, ((2 * u.V(x) as int) % 0x100) as uint8))
    else Err(UnknownOpcode(ins.opcode))
  }

  /**
   * Dxyn: the `n` bytes from I must lie in RAM; they are drawn at (Vx, Vy)
   * and VF reports whether a lit pixel was turned off.
   */
  function Draw(s: ChipState, ins: Instr.Instr): (r: Result<ChipState>)
    requires s.Valid() && Instr.Decoded(ins)
    ensures r.Ok? ==> r.value.Valid()
  {
    var start := s.regs.i as int;
    if start + ins.n as int > RamSize then Err(AddressOutOfRange)
    else
      var sprite := Util.Slice(s.mem, start, start + ins.n as int);
      var sx := s.V(ins.x as int) as int % DisplayWidth;
      var sy := s.V(ins.y as int) as int % DisplayHeight;
      var erased := Framebuffer.Erases(s.frame, sprite, sx, sy);
      Ok(s.(frame := Framebuffer.Drawn(s.frame, sprite, sx, sy)).SetV(0xF, if erased then 1 else 0))
  }

  /** Class E: SKP (Ex9E) and SKNP (ExA1) on the key named by Vx, which must be a key. */
  function ExecKeys(s: ChipState, ins: Instr.Instr): (r: Result<ChipState>)
    requires s.Valid() && Instr.Decoded(ins) && s.regs.pc as int <= RamSize
    ensures r.Ok? ==> r.value.Valid()
  {
    var key := s.V(ins.x as int) as int;
    if ins.nn == 0x9E then
      if key >= NKeys then Err(KeyOutOfRange) else Ok(SkipIf(s, s.keys[key]))
    else if ins.nn == 0xA1 then
      if key >= NKeys then Err(KeyOutOfRange) else Ok(SkipIf(s, !s.keys[key]))
    else Err(UnknownOpcode(ins.opcode))
  }

  /** The lowest-numbered pressed key, if any. */
  function FirstPressed(keys: seq<bool>): (k: Option<nat>)
    ensures k.Some? ==> k.value < |keys| && keys[k.value] && forall j :: 0 <= j < k.value ==> !keys[j]
    ensures k.None? <==> forall j :: 0 <= j < |keys| ==> !keys[j]
  {
    if |keys| == 0 then None
    else if keys[0] then Some(0)
    else match FirstPressed(keys[1..])
      case None => None
      case Some(j) => Some(j + 1)
  }

  /** The three decimal digits of `v`, most significant first. */
  function Bcd(v: uint8): (d: seq<uint8>)
    ensures |d| == 3 && d[0] <= 9 && d[1] <= 9 && d[2] <= 9
    ensures 100 * d[0] as int + 10 * d[1] as int + d[2] as int == v as int
  {
    [v / 100, (v / 10) % 10, v % 10]
  }

  /**
   * Class F: timers, key wait, I arithmetic, digit sprites, BCD and the
   * register dump and load.
   */
  function ExecMisc(s: ChipState, p: Profile.Profile, ins: Instr.Instr): (r: Result<ChipState>)
    requires s.Valid() && Instr.Decoded(ins) && 2 <= s.regs.pc as int
    ensures r.Ok? ==> r.value.Valid()
  {
    var x := ins.x as int;
    var vx := s.V(x);
    var i := s.regs.i as int;
    if ins.nn == 0x07 then Ok(s.SetV(x, s.regs.dt))
    else if ins.nn == 0x0A then
      match FirstPressed(s.keys)
      case Some(k) => Ok(s.SetV(x, k as uint8))
      case None => Ok(s.WithPc(s.regs.pc - 2))
    else if ins.nn == 0x15 then Ok(s.(regs := s.regs.(dt := vx)))
    else if ins.nn == 0x18 then Ok(s.(regs := s.regs.(st := vx)))
    else if ins.nn == 0x1E then
      if i + vx as int >= 0x1_0000 then Err(IndexOverflow) else Ok(s.WithI((i + vx as int) as uint16))
    else if ins.nn == 0x29 then
      if vx as int >= NSprites then Err(DigitOutOfRange) else Ok(s.WithI(s.spriteAddr[vx]))
    else if ins.nn == 0x33 then
      if i + 2 >= RamSize then Err(AddressOutOfRange)
      else Ok(s.(mem := Ram.Stored(s.mem, i, Bcd(vx))))
    else if ins.nn == 0x55 then
      if i + x >= RamSize then Err(AddressOutOfRange)
      else
        var t := s.(mem := Ram.Stored(s.mem, i, s.regs.vx[..x + 1]));
        Ok(if p.opFx55StoreI then t.WithI((i + x + 1) as uint16) else t)
    else if ins.nn == 0x65 then
      if i + x >= RamSize then Err(AddressOutOfRange)
      else
        var t := s.(regs := s.regs.(vx := s.mem[i..i + x + 1] + s.regs.vx[x + 1..]));
        Ok(if p.opFx65StoreI then t.WithI((i + x + 1) as uint16) else t)
    else Err(UnknownOpcode(ins.opcode))
  }

  /** `cycle_timers`: each timer that is running counts down by one. */
  function Tick(r: Regs.RegMap): (r': Regs.RegMap)
    ensures r' == r.(dt := r'.dt, st := r'.st)
    ensures r.dt > 0 ==> r'.dt as int == r.dt as int - 1
    ensures r.st > 0 ==> r'.st as int == r.st as int - 1
    ensures r.dt == 0 ==> r'.dt == 0
    ensures r.st == 0 ==> r'.st == 0
  {
    r.(dt := if r.dt > 0 then r.dt - 1 else 0, st := if r.st > 0 then r.st - 1 else 0)
  }
}
