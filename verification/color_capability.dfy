/** COLOR_CAPABILITY: bit flags of the colorCapabilities attribute of the
    lightingColorCtrl cluster. JavaScript evaluates `<<` and `|` on 32-bit
    integers, so the flags are 32-bit vectors here. */
module ColorCapability {

  const HueSat: bv32 := 1 << 0
  const EnhancedHueSat: bv32 := 1 << 1
  const Xy: bv32 := 1 << 3
  /** Written in the source as the union of the three bit positions above. */
  const Color: bv32 := (1 << 0) | (1 << 1) | (1 << 3)
  const Temperature: bv32 := 1 << 4

  /** The colour mask is exactly the union of the three colour flags. */
  lemma ColorIsUnion()
    ensures Color == HueSat | EnhancedHueSat | Xy
    ensures Color == 0x0b && Temperature == 0x10
  {
  }

  /** Masking a capability word with COLOR detects any of the three colour
      modes, and only those. */
  lemma ColorMask(cap: bv32)
    ensures cap & Color != 0 <==> (cap & HueSat != 0 || cap & EnhancedHueSat != 0 || cap & Xy != 0)
    ensures cap & Color == cap & (HueSat | EnhancedHueSat | Xy)
  {
  }

  /** Colour-temperature support is a separate flag: the colour mask never
      sees it, and the four flags are pairwise disjoint single bits. */
  lemma TemperatureSeparate(cap: bv32)
    ensures Color & Temperature == 0
    ensures (cap | Temperature) & Color == cap & Color
    ensures HueSat & EnhancedHueSat == 0 && HueSat & Xy == 0 && EnhancedHueSat & Xy == 0
  {
  }
}
