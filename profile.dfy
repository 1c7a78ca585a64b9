/** The quirk profile: which reading of the ambiguous instructions the interpreter follows. */
module Profile {
  /**
   * `op_8xy6_use_vy` / `op_8xye_use_vy`: SHR / SHL first copy Vy into Vx.
   * `op_fx55_store_i` / `op_fx65_store_i`: the register dump / load advance I.
   */
  datatype Profile = Profile(op8xy6UseVy: bool, op8xyEUseVy: bool, opFx55StoreI: bool, opFx65StoreI: bool)

  /** `Profile::original`: the historic behaviour of every quirk. */
  function Original(): (p: Profile)
    ensures p.op8xy6UseVy && p.op8xyEUseVy
    ensures p.opFx55StoreI && p.opFx65StoreI
  {
    Profile(true, true, true, true)
  }

  /** `Profile::modern`: the modern behaviour of every quirk. */
  function Modern(): (p: Profile)
    ensures !p.op8xy6UseVy && !p.op8xyEUseVy
    ensures !p.opFx55StoreI && !p.opFx65StoreI
  {
    Profile(false, false, false, false)
  }

  /** The two presets disagree on every one of the four quirks. */
  lemma PresetsDisagree()
    ensures Original().op8xy6UseVy != Modern().op8xy6UseVy
    ensures Original().op8xyEUseVy != Modern().op8xyEUseVy
    ensures Original().opFx55StoreI != Modern().opFx55StoreI
    ensures Original().opFx65StoreI != Modern().opFx65StoreI
  {
  }
}
