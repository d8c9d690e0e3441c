/** CRC-64-Jones: the table-driven loop and the bit-serial division it stands for. */
module Crc64 {
  import opened Bytes

  /** The reflected polynomial; also entry 128 of the table. */
  const POLY: bv64 := 0x95ac9329ac4bc9b5

  function Xor(a: bv64, b: bv64): bv64 {
    a ^ b
  }

  /** One bit of reflected polynomial division. */
  function BitStep(c: bv64): bv64 {
    if c & 1 == 1 then (c >> 1) ^ POLY else c >> 1
  }

  function Iter<T>(f: T -> T, n: nat, x: T): T {
    if n == 0 then x else Iter(f, n - 1, f(x))
  }

  /** n bits of division. */
  function Bits(n: nat, c: bv64): bv64 {
    Iter(BitStep, n, c)
  }

  /** The bit pattern of a byte. */
  function ToBv8(b: byte): (v: bv8)
    ensures v as int == b
    decreases b as int
  {
    if b == 0 then 0 else ToBv8(b - 1) + 1
  }

  function Widen(b: byte): bv64 {
    ToBv8(b) as bv64
  }

  /** Reference definition: fold each byte into the low end, then divide eight bits. */
  function BitSerial(crc: bv64, s: seq<byte>): bv64
    decreases |s|
  {
    if s == [] then crc else BitSerial(Bits(8, Xor(crc, Widen(s[0]))), s[1..])
  }

  // ----- the table -----

  /** Sixteen consecutive entries of the table, starting at entry 16 * hi. */
  function TableRow(hi: nat): (row: seq<bv64>)
    requires hi < 16
    ensures |row| == 16
  {
    match hi
    case 0 => [0x0000000000000000, 0x7ad870c830358979, 0xf5b0e190606b12f2, 0x8f689158505e9b8b,
             0xc038e5739841b68f, 0xbae095bba8743ff6, 0x358804e3f82aa47d, 0x4f50742bc81f2d04,
             0xab28ecb46814fe75, 0xd1f09c7c5821770c, 0x5e980d24087fec87, 0x24407dec384a65fe,
             0x6b1009c7f05548fa, 0x11c8790fc060c183, 0x9ea0e857903e5a08, 0xe478989fa00bd371]
    case 1 => [0x7d08ff3b88be6f81, 0x07d08ff3b88be6f8, 0x88b81eabe8d57d73, 0xf2606e63d8e0f40a,
             0xbd301a4810ffd90e, 0xc7e86a8020ca5077, 0x4880fbd87094cbfc, 0x32588b1040a14285,
             0xd620138fe0aa91f4, 0xacf86347d09f188d, 0x2390f21f80c18306, 0x594882d7b0f40a7f,
             0x1618f6fc78eb277b, 0x6cc0863448deae02, 0xe3a8176c18803589, 0x997067a428b5bcf0]
    case 2 => [0xfa11fe77117cdf02, 0x80c98ebf2149567b, 0x0fa11fe77117cdf0, 0x75796f2f41224489,
             0x3a291b04893d698d, 0x40f16bccb908e0f4, 0xcf99fa94e9567b7f, 0xb5418a5cd963f206,
             0x513912c379682177, 0x2be1620b495da80e, 0xa489f35319033385, 0xde51839b2936bafc,
             0x9101f7b0e12997f8, 0xebd98778d11c1e81, 0x64b116208142850a, 0x1e6966e8b1770c73]
    case 3 => [0x8719014c99c2b083, 0xfdc17184a9f739fa, 0x72a9e0dcf9a9a271, 0x08719014c99c2b08,
             0x4721e43f0183060c, 0x3df994f731b68f75, 0xb29105af61e814fe, 0xc849756751dd9d87,
             0x2c31edf8f1d64ef6, 0x56e99d30c1e3c78f, 0xd9810c6891bd5c04, 0xa3597ca0a188d57d,
             0xec09088b6997f879, 0x96d1784359a27100, 0x19b9e91b09fcea8b, 0x636199d339c963f2]
    case 4 => [0xdf7adabd7a6e2d6f, 0xa5a2aa754a5ba416, 0x2aca3b2d1a053f9d, 0x50124be52a30b6e4,
             0x1f423fcee22f9be0, 0x659a4f06d21a1299, 0xeaf2de5e82448912, 0x902aae96b271006b,
             0x74523609127ad31a, 0x0e8a46c1224f5a63, 0x81e2d7997211c1e8, 0xfb3aa75142244891,
             0xb46ad37a8a3b6595, 0xceb2a3b2ba0eecec, 0x41da32eaea507767, 0x3b024222da65fe1e]
    case 5 => [0xa2722586f2d042ee, 0xd8aa554ec2e5cb97, 0x57c2c41692bb501c, 0x2d1ab4dea28ed965,
             0x624ac0f56a91f461, 0x1892b03d5aa47d18, 0x97fa21650afae693, 0xed2251ad3acf6fea,
             0x095ac9329ac4bc9b, 0x7382b9faaaf135e2, 0xfcea28a2faafae69, 0x8632586aca9a2710,
             0xc9622c4102850a14, 0xb3ba5c8932b0836d, 0x3cd2cdd162ee18e6, 0x460abd1952db919f]
    case 6 => [0x256b24ca6b12f26d, 0x5fb354025b277b14, 0xd0dbc55a0b79e09f, 0xaa03b5923b4c69e6,
             0xe553c1b9f35344e2, 0x9f8bb171c366cd9b, 0x10e3202993385610, 0x6a3b50e1a30ddf69,
             0x8e43c87e03060c18, 0xf49bb8b633338561, 0x7bf329ee636d1eea, 0x012b592653589793,
             0x4e7b2d0d9b47ba97, 0x34a35dc5ab7233ee, 0xbbcbcc9dfb2ca865, 0xc113bc55cb19211c]
    case 7 => [0x5863dbf1e3ac9dec, 0x22bbab39d3991495, 0xadd33a6183c78f1e, 0xd70b4aa9b3f20667,
             0x985b3e827bed2b63, 0xe2834e4a4bd8a21a, 0x6debdf121b863991, 0x1733afda2bb3b0e8,
             0xf34b37458bb86399, 0x8993478dbb8deae0, 0x06fbd6d5ebd3716b, 0x7c23a61ddbe6f812,
             0x3373d23613f9d516, 0x49aba2fe23cc5c6f, 0xc6c333a67392c7e4, 0xbc1b436e43a74e9d]
    case 8 => [0x95ac9329ac4bc9b5, 0xef74e3e19c7e40cc, 0x601c72b9cc20db47, 0x1ac40271fc15523e,
             0x5594765a340a7f3a, 0x2f4c0692043ff643, 0xa02497ca54616dc8, 0xdafce7026454e4b1,
             0x3e847f9dc45f37c0, 0x445c0f55f46abeb9, 0xcb349e0da4342532, 0xb1eceec59401ac4b,
             0xfebc9aee5c1e814f, 0x8464ea266c2b0836, 0x0b0c7b7e3c7593bd, 0x71d40bb60c401ac4]
    case 9 => [0xe8a46c1224f5a634, 0x927c1cda14c02f4d, 0x1d148d82449eb4c6, 0x67ccfd4a74ab3dbf,
             0x289c8961bcb410bb, 0x5244f9a98c8199c2, 0xdd2c68f1dcdf0249, 0xa7f41839ecea8b30,
             0x438c80a64ce15841, 0x3954f06e7cd4d138, 0xb63c61362c8a4ab3, 0xcce411fe1cbfc3ca,
             0x83b465d5d4a0eece, 0xf96c151de49567b7, 0x76048445b4cbfc3c, 0x0cdcf48d84fe7545]
    case 10 => [0x6fbd6d5ebd3716b7, 0x15651d968d029fce, 0x9a0d8ccedd5c0445, 0xe0d5fc06ed698d3c,
             0xaf85882d2576a038, 0xd55df8e515432941, 0x5a3569bd451db2ca, 0x20ed197575283bb3,
             0xc49581ead523e8c2, 0xbe4df122e51661bb, 0x3125607ab548fa30, 0x4bfd10b2857d7349,
             0x04ad64994d625e4d, 0x7e7514517d57d734, 0xf11d85092d094cbf, 0x8bc5f5c11d3cc5c6]
    case 11 => [0x12b5926535897936, 0x686de2ad05bcf04f, 0xe70573f555e26bc4, 0x9ddd033d65d7e2bd,
             0xd28d7716adc8cfb9, 0xa85507de9dfd46c0, 0x273d9686cda3dd4b, 0x5de5e64efd965432,
             0xb99d7ed15d9d8743, 0xc3450e196da80e3a, 0x4c2d9f413df695b1, 0x36f5ef890dc31cc8,
             0x79a59ba2c5dc31cc, 0x037deb6af5e9b8b5, 0x8c157a32a5b7233e, 0xf6cd0afa9582aa47]
    case 12 => [0x4ad64994d625e4da, 0x300e395ce6106da3, 0xbf66a804b64ef628, 0xc5bed8cc867b7f51,
             0x8aeeace74e645255, 0xf036dc2f7e51db2c, 0x7f5e4d772e0f40a7, 0x05863dbf1e3ac9de,
             0xe1fea520be311aaf, 0x9b26d5e88e0493d6, 0x144e44b0de5a085d, 0x6e963478ee6f8124,
             0x21c640532670ac20, 0x5b1e309b16452559, 0xd476a1c3461bbed2, 0xaeaed10b762e37ab]
    case 13 => [0x37deb6af5e9b8b5b, 0x4d06c6676eae0222, 0xc26e573f3ef099a9, 0xb8b627f70ec510d0,
             0xf7e653dcc6da3dd4, 0x8d3e2314f6efb4ad, 0x0256b24ca6b12f26, 0x788ec2849684a65f,
             0x9cf65a1b368f752e, 0xe62e2ad306bafc57, 0x6946bb8b56e467dc, 0x139ecb4366d1eea5,
             0x5ccebf68aecec3a1, 0x2616cfa09efb4ad8, 0xa97e5ef8cea5d153, 0xd3a62e30fe90582a]
    case 14 => [0xb0c7b7e3c7593bd8, 0xca1fc72bf76cb2a1, 0x45775673a732292a, 0x3faf26bb9707a053,
             0x70ff52905f188d57, 0x0a2722586f2d042e, 0x854fb3003f739fa5, 0xff97c3c80f4616dc,
             0x1bef5b57af4dc5ad, 0x61372b9f9f784cd4, 0xee5fbac7cf26d75f, 0x9487ca0fff135e26,
             0xdbd7be24370c7322, 0xa10fceec0739fa5b, 0x2e675fb4576761d0, 0x54bf2f7c6752e8a9]
    case _ => [0xcdcf48d84fe75459, 0xb71738107fd2dd20, 0x387fa9482f8c46ab, 0x42a7d9801fb9cfd2,
             0x0df7adabd7a6e2d6, 0x772fdd63e7936baf, 0xf8474c3bb7cdf024, 0x829f3cf387f8795d,
             0x66e7a46c27f3aa2c, 0x1c3fd4a417c62355, 0x935745fc4798b8de, 0xe98f353477ad31a7,
             0xa6df411fbfb21ca3, 0xdc0731d78f8795da, 0x536fa08fdfd90e51, 0x29b7d047efec8728]
  }

  function Table(b: bv8): bv64 {
    TableRow((b >> 4) as nat)[(b & 15) as nat]
  }

  // ----- iterating a linear or injective step -----

  lemma {:induction false} IterLinear<T(!new)>(f: T -> T, x: (T, T) -> T, n: nat, c: T, d: T)
    requires forall a, b :: f(x(a, b)) == x(f(a), f(b))
    ensures Iter(f, n, x(c, d)) == x(Iter(f, n, c), Iter(f, n, d))
  {
    if n != 0 {
      IterLinear(f, x, n - 1, f(c), f(d));
    }
  }

  lemma {:induction false} IterInjective<T(!new)>(f: T -> T, n: nat, c: T, d: T)
    requires forall a, b :: f(a) == f(b) ==> a == b
    requires Iter(f, n, c) == Iter(f, n, d)
    ensures c == d
  {
    if n != 0 {
      IterInjective(f, n - 1, f(c), f(d));
    }
  }

  lemma {:induction false} IterAdd<T>(f: T -> T, m: nat, n: nat, c: T)
    ensures Iter(f, m + n, c) == Iter(f, n, Iter(f, m, c))
  {
    if m != 0 {
      IterAdd(f, m - 1, n, f(c));
    }
  }

  // ----- the division step is linear and injective -----

  lemma StepLinearOdd(c: bv64, d: bv64)
    requires c & 1 == 1 && d & 1 == 0
    ensures BitStep(c ^ d) == BitStep(c) ^ BitStep(d)
  {
  }

  lemma StepLinearEven(c: bv64, d: bv64)
    requires c & 1 == 0 && d & 1 == 0
    ensures BitStep(c ^ d) == BitStep(c) ^ BitStep(d)
  {
  }

  lemma StepLinearBoth(c: bv64, d: bv64)
    requires c & 1 == 1 && d & 1 == 1
    ensures BitStep(c ^ d) == BitStep(c) ^ BitStep(d)
  {
  }

  lemma LowBit(c: bv64)
    ensures c & 1 == 0 || c & 1 == 1
  {
  }

  lemma StepLinear(c: bv64, d: bv64)
    ensures BitStep(c ^ d) == BitStep(c) ^ BitStep(d)
  {
    LowBit(c);
    LowBit(d);
    if c & 1 == 1 {
      if d & 1 == 1 {
        StepLinearBoth(c, d);
      } else {
        StepLinearOdd(c, d);
      }
    } else if d & 1 == 0 {
      StepLinearEven(c, d);
    } else {
      StepLinearOdd(d, c);
    }
  }

  lemma StepLinearAll()
    ensures forall a, b :: BitStep(Xor(a, b)) == Xor(BitStep(a), BitStep(b))
  {
    forall a, b ensures BitStep(Xor(a, b)) == Xor(BitStep(a), BitStep(b)) {
      StepLinear(a, b);
    }
  }

  lemma BitsLinear(n: nat, c: bv64, d: bv64)
    ensures Bits(n, Xor(c, d)) == Xor(Bits(n, c), Bits(n, d))
  {
    StepLinearAll();
    IterLinear(BitStep, Xor, n, c, d);
  }

  lemma StepInjective(c: bv64, d: bv64)
    requires BitStep(c) == BitStep(d)
    ensures c == d
  {
  }

  lemma BitsInjective(n: nat, c: bv64, d: bv64)
    requires Bits(n, c) == Bits(n, d)
    ensures c == d
  {
    forall a, b | BitStep(a) == BitStep(b) ensures a == b {
      StepInjective(a, b);
    }
    IterInjective(BitStep, n, c, d);
  }

  lemma BitsAdd(m: nat, n: nat, c: bv64)
    ensures Bits(m + n, c) == Bits(n, Bits(m, c))
  {
    IterAdd(BitStep, m, n, c);
  }

  lemma StepShifts(c: bv64)
    requires c & 1 == 0
    ensures Bits(1, c) == c >> 1
  {
    assert BitStep(c) == c >> 1;
    assert Iter(BitStep, 1, c) == Iter(BitStep, 0, BitStep(c));
  }

  lemma ShiftsTwo(c: bv64)
    requires c & 3 == 0
    ensures Bits(2, c) == c >> 2
  {
    BitsAdd(1, 1, c);
    StepShifts(c);
    StepShifts(c >> 1);
  }

  lemma ShiftsFour(c: bv64)
    requires c & 0xf == 0
    ensures Bits(4, c) == c >> 4
  {
    BitsAdd(2, 2, c);
    ShiftsTwo(c);
    ShiftsTwo(c >> 2);
  }

  function Shr8(c: bv64): bv64 {
    c >> 8
  }

  function Shl8(c: bv64): bv64 {
    c << 8
  }

  predicate LowClear(c: bv64) {
    c & 0xff == 0
  }

  /** A word whose low byte is clear is only shifted. */
  lemma ShiftsEight(c: bv64)
    requires LowClear(c)
    ensures Bits(8, c) == Shr8(c)
  {
    BitsAdd(4, 4, c);
    ShiftsFour(c);
    ShiftsFour(c >> 4);
  }

  // ----- the table holds the bit-serial remainders -----

  lemma Row1Linear(lo: nat)
    requires lo < 16
    ensures TableRow(1)[lo] == Xor(TableRow(1)[0], TableRow(0)[lo])
  {
  }

  lemma Row2Linear(lo: nat)
    requires lo < 16
    ensures TableRow(2)[lo] == Xor(TableRow(2)[0], TableRow(0)[lo])
  {
  }

  lemma Row3Linear(lo: nat)
    requires lo < 16
    ensures TableRow(3)[lo] == Xor(TableRow(3)[0], TableRow(0)[lo])
  {
  }

  lemma Row4Linear(lo: nat)
    requires lo < 16
    ensures TableRow(4)[lo] == Xor(TableRow(4)[0], TableRow(0)[lo])
  {
  }

  lemma Row5Linear(lo: nat)
    requires lo < 16
    ensures TableRow(5)[lo] == Xor(TableRow(5)[0], TableRow(0)[lo])
  {
  }

  lemma Row6Linear(lo: nat)
    requires lo < 16
    ensures TableRow(6)[lo] == Xor(TableRow(6)[0], TableRow(0)[lo])
  {
  }

  lemma Row7Linear(lo: nat)
    requires lo < 16
    ensures TableRow(7)[lo] == Xor(TableRow(7)[0], TableRow(0)[lo])
  {
  }

  lemma Row8Linear(lo: nat)
    requires lo < 16
    ensures TableRow(8)[lo] == Xor(TableRow(8)[0], TableRow(0)[lo])
  {
  }

  lemma Row9Linear(lo: nat)
    requires lo < 16
    ensures TableRow(9)[lo] == Xor(TableRow(9)[0], TableRow(0)[lo])
  {
  }

  lemma Row10Linear(lo: nat)
    requires lo < 16
    ensures TableRow(10)[lo] == Xor(TableRow(10)[0], TableRow(0)[lo])
  {
  }

  lemma Row11Linear(lo: nat)
    requires lo < 16
    ensures TableRow(11)[lo] == Xor(TableRow(11)[0], TableRow(0)[lo])
  {
  }

  lemma Row12Linear(lo: nat)
    requires lo < 16
    ensures TableRow(12)[lo] == Xor(TableRow(12)[0], TableRow(0)[lo])
  {
  }

  lemma Row13Linear(lo: nat)
    requires lo < 16
    ensures TableRow(13)[lo] == Xor(TableRow(13)[0], TableRow(0)[lo])
  {
  }

  lemma Row14Linear(lo: nat)
    requires lo < 16
    ensures TableRow(14)[lo] == Xor(TableRow(14)[0], TableRow(0)[lo])
  {
  }

  lemma Row15Linear(lo: nat)
    requires lo < 16
    ensures TableRow(15)[lo] == Xor(TableRow(15)[0], TableRow(0)[lo])
  {
  }

  lemma RowLinear(hi: nat, lo: nat)
    requires hi < 16 && lo < 16
    ensures TableRow(hi)[lo] == Xor(TableRow(hi)[0], TableRow(0)[lo])
  {
    match hi
    case 0 =>
    case 1 => Row1Linear(lo);
    case 2 => Row2Linear(lo);
    case 3 => Row3Linear(lo);
    case 4 => Row4Linear(lo);
    case 5 => Row5Linear(lo);
    case 6 => Row6Linear(lo);
    case 7 => Row7Linear(lo);
    case 8 => Row8Linear(lo);
    case 9 => Row9Linear(lo);
    case 10 => Row10Linear(lo);
    case 11 => Row11Linear(lo);
    case 12 => Row12Linear(lo);
    case 13 => Row13Linear(lo);
    case 14 => Row14Linear(lo);
    case _ => Row15Linear(lo);
  }

  lemma LowEntryHalf(b: bv8)
    requires b < 8
    ensures TableRow(0)[b as nat] == Bits(8, b as bv64)
  {
    if b == 0 {
    } else if b == 1 {
    } else if b == 2 {
    } else if b == 3 {
    } else if b == 4 {
    } else if b == 5 {
    } else if b == 6 {
    } else if b == 7 {
    }
  }

  lemma LowEntry(b: bv8)
    requires b < 16
    ensures TableRow(0)[b as nat] == Bits(8, b as bv64)
  {
    if b < 8 {
      LowEntryHalf(b);
    } else {
      if b == 8 {
      } else if b == 9 {
      } else if b == 10 {
      } else if b == 11 {
      } else if b == 12 {
      } else if b == 13 {
      } else if b == 14 {
      } else if b == 15 {
      }
    }
  }

  lemma HighEntry(b: bv8)
    requires b & 0x0f == 0
    ensures TableRow((b >> 4) as nat)[0] == Bits(8, b as bv64)
  {
    if b == 0 {
    } else if b == 16 {
    } else if b == 32 {
    } else if b == 48 {
    } else if b == 64 {
    } else if b == 80 {
    } else if b == 96 {
    } else if b == 112 {
    } else if b == 128 {
    } else if b == 144 {
    } else if b == 160 {
    } else if b == 176 {
    } else if b == 192 {
    } else if b == 208 {
    } else if b == 224 {
    } else if b == 240 {
    }
  }

  lemma NibbleXor(b: bv8)
    ensures Xor((b & 0xf0) as bv64, (b & 0x0f) as bv64) == b as bv64
    ensures (b & 0xf0) >> 4 == b >> 4 < 16
    ensures (b & 0xf0) & 0x0f == 0
    ensures b & 0x0f < 16
  {
  }

  lemma TableEntry(b: bv8)
    ensures Table(b) == Bits(8, b as bv64)
  {
    NibbleXor(b);
    var hi, lo := b & 0xf0, b & 0x0f;
    BitsLinear(8, hi as bv64, lo as bv64);
    LowEntry(lo);
    HighEntry(hi);
    RowLinear((b >> 4) as nat, lo as nat);
  }

  // ----- the table-driven loop -----

  function Index(c: bv64, v: bv8): bv8 {
    (c & 0xff) as bv8 ^ v
  }

  /** The body of the loop: one table lookup and one shift per byte. */
  function TableStep(c: bv64, b: byte): bv64 {
    Xor(Table(Index(c, ToBv8(b))), Shr8(c))
  }

  function ClearLow(c: bv64): bv64 {
    c & 0xffff_ffff_ffff_ff00
  }

  lemma SplitLowByte(c: bv64, v: bv8)
    ensures Xor(c, v as bv64) == Xor(Index(c, v) as bv64, ClearLow(c))
    ensures LowClear(ClearLow(c)) && Shr8(ClearLow(c)) == Shr8(c)
  {
  }

  lemma TableStepIsEightBits(c: bv64, b: byte)
    ensures TableStep(c, b) == Bits(8, Xor(c, Widen(b)))
  {
    hide Xor, Bits, Table, Shr8, ClearLow, LowClear, Index;
    var i := Index(c, ToBv8(b));
    SplitLowByte(c, ToBv8(b));
    BitsLinear(8, i as bv64, ClearLow(c));
    TableEntry(i);
    ShiftsEight(ClearLow(c));
  }

  lemma {:induction false} BitSerialAppend(c: bv64, a: seq<byte>, b: seq<byte>)
    ensures BitSerial(c, a + b) == BitSerial(BitSerial(c, a), b)
    decreases |a|
  {
    if a == [] {
      assert a + b == b;
    } else {
      assert (a + b)[1..] == a[1..] + b;
      BitSerialAppend(Bits(8, Xor(c, Widen(a[0]))), a[1..], b);
    }
  }

  /** The checksum loop, over the first l bytes at s. */
  method Compute(init: bv64, s: array<byte>, l: nat) returns (crc: bv64)
    requires l <= s.Length
    ensures crc == BitSerial(init, s[..l])
  {
    hide Xor, Bits, Table, Shr8, Index;
    crc := init;
    var j := 0;
    while j < l
      invariant 0 <= j <= l
      invariant crc == BitSerial(init, s[..j])
    {
      assert s[..j + 1] == s[..j] + [s[j]];
      BitSerialAppend(init, s[..j], [s[j]]);
      TableStepIsEightBits(crc, s[j]);
      crc := TableStep(crc, s[j]);
      j := j + 1;
    }
  }

  // ----- what the checksum detects -----

  lemma {:induction false} StateInjective(c: bv64, d: bv64, s: seq<byte>)
    requires BitSerial(c, s) == BitSerial(d, s)
    ensures c == d
    decreases |s|
  {
    if s != [] {
      var w := Widen(s[0]);
      StateInjective(Bits(8, Xor(c, w)), Bits(8, Xor(d, w)), s[1..]);
      BitsInjective(8, Xor(c, w), Xor(d, w));
      XorCancels(c, d, w);
    }
  }

  lemma XorCancels(a: bv64, b: bv64, c: bv64)
    requires Xor(a, c) == Xor(b, c)
    ensures a == b
  {
  }

  lemma XorCancelsLeft(c: bv64, a: bv64, b: bv64)
    requires Xor(c, a) == Xor(c, b)
    ensures a == b
  {
  }

  /** Up to eight bytes laid out in one word, the first byte lowest. */
  function Window(s: seq<byte>): bv64
    decreases |s|
  {
    if s == [] then 0 else Xor(Widen(s[0]), Shl8(Window(s[1..])))
  }

  /** Only the low n bytes of w can be set. */
  predicate FitsIn(w: bv64, n: nat) {
    w & Mask(n) == w
  }

  function Mask(n: nat): bv64 {
    if n == 0 then 0 else NextMask(Mask(n - 1))
  }

  function NextMask(m: bv64): bv64 {
    (m << 8) | 0xff
  }

  lemma MaskStep(v: bv8, w: bv64, m: bv64)
    requires w & m == w
    ensures Xor(v as bv64, Shl8(w)) & NextMask(m) == Xor(v as bv64, Shl8(w))
  {
  }

  lemma FitsStep(v: bv8, w: bv64, n: nat)
    requires FitsIn(w, n)
    ensures FitsIn(Xor(v as bv64, Shl8(w)), n + 1)
  {
    hide Xor, Shl8, NextMask;
    MaskStep(v, w, Mask(n));
  }

  lemma {:induction false} WindowFits(s: seq<byte>)
    ensures FitsIn(Window(s), |s|)
    decreases |s|
  {
    hide Xor, Shl8, FitsIn;
    if s == [] {
      ZeroFits();
    } else {
      WindowFits(s[1..]);
      FitsStep(ToBv8(s[0]), Window(s[1..]), |s| - 1);
    }
  }

  lemma ZeroFits()
    ensures FitsIn(0, 0)
  {
  }

  lemma MaskBelowTop(n: nat)
    requires n <= 7
    ensures Mask(n) & 0xff00_0000_0000_0000 == 0
  {
    assert Mask(4) == 0xffff_ffff;
    assert Mask(7) == 0xff_ffff_ffff_ffff;
  }

  lemma ShiftBack(w: bv64, m: bv64)
    requires w & m == w && m & 0xff00_0000_0000_0000 == 0
    ensures Shr8(Shl8(w)) == w && LowClear(Shl8(w))
  {
  }

  lemma WindowShift(s: seq<byte>)
    requires |s| <= 7
    ensures Shr8(Shl8(Window(s))) == Window(s) && LowClear(Shl8(Window(s)))
  {
    hide Shr8, Shl8, LowClear, Window, Mask;
    WindowFits(s);
    MaskBelowTop(|s|);
    ShiftBack(Window(s), Mask(|s|));
  }

  lemma XorRegroup(c: bv64, x: bv64, y: bv64)
    ensures Xor(c, Xor(x, y)) == Xor(Xor(c, x), y)
  {
    var t, u := x ^ y, c ^ x;
    assert c ^ (x ^ y) == (c ^ x) ^ y;
    assert Xor(x, y) == t && Xor(c, x) == u;
  }
  lemma XorZero(c: bv64)
    ensures Xor(c, 0) == c
  {
  }

  /** Eight bytes or fewer pass through the register as one word. */
  lemma {:induction false} BitSerialWindow(c: bv64, s: seq<byte>)
    requires |s| <= 8
    ensures BitSerial(c, s) == Bits(8 * |s|, Xor(c, Window(s)))
    decreases |s|
  {
    hide Xor, Shr8, Shl8, LowClear, BitStep;
    if s == [] {
      XorZero(c);
    } else {
      var b, rest, w := Widen(s[0]), s[1..], Window(s[1..]);
      BitSerialWindow(Bits(8, Xor(c, b)), rest);
      WindowShift(rest);
      BitsLinear(8, Xor(c, b), Shl8(w));
      ShiftsEight(Shl8(w));
      XorRegroup(c, b, Shl8(w));
      BitsAdd(8, 8 * |rest|, Xor(c, Window(s)));
    }
  }

  lemma PeelByte(x: bv8, y: bv8, u: bv64, v: bv64)
    requires Xor(x as bv64, Shl8(u)) == Xor(y as bv64, Shl8(v))
    ensures x == y && Shl8(u) == Shl8(v)
  {
  }

  lemma {:induction false} WindowInjective(a: seq<byte>, b: seq<byte>)
    requires |a| == |b| <= 8 && Window(a) == Window(b)
    ensures a == b
    decreases |a|
  {
    hide Xor, Shr8, Shl8, LowClear;
    if a != [] {
      PeelByte(ToBv8(a[0]), ToBv8(b[0]), Window(a[1..]), Window(b[1..]));
      WindowShift(a[1..]);
      WindowShift(b[1..]);
      WindowInjective(a[1..], b[1..]);
      assert a == [a[0]] + a[1..] && b == [b[0]] + b[1..];
    }
  }

  /** Two bodies of equal length that differ only inside eight consecutive bytes have
      different checksums. */
  lemma BurstDetected(c: bv64, s: seq<byte>, t: seq<byte>, i: nat)
    requires |s| == |t| && i <= |s|
    requires forall k :: 0 <= k < |s| && !(i <= k < i + 8) ==> s[k] == t[k]
    ensures BitSerial(c, s) == BitSerial(c, t) <==> s == t
  {
    var j := if i + 8 <= |s| then i + 8 else |s|;
    var a, b := s[i..j], t[i..j];
    assert s == s[..i] + a + s[j..] && t == s[..i] + b + s[j..];
    if BitSerial(c, s) == BitSerial(c, t) {
      BitSerialAppend(c, s[..i] + a, s[j..]);
      BitSerialAppend(c, s[..i] + b, s[j..]);
      StateInjective(BitSerial(c, s[..i] + a), BitSerial(c, s[..i] + b), s[j..]);
      BitSerialAppend(c, s[..i], a);
      BitSerialAppend(c, s[..i], b);
      BurstInjective(BitSerial(c, s[..i]), a, b);
    }
  }

  lemma BurstInjective(c: bv64, a: seq<byte>, b: seq<byte>)
    requires |a| == |b| <= 8 && BitSerial(c, a) == BitSerial(c, b)
    ensures a == b
  {
    BitSerialWindow(c, a);
    BitSerialWindow(c, b);
    BitsInjective(8 * |a|, Xor(c, Window(a)), Xor(c, Window(b)));
    XorCancelsLeft(c, Window(a), Window(b));
    WindowInjective(a, b);
  }

  // ----- the checksum as eight stored bytes -----

  function LowByte(c: bv64): bv8 {
    (c & 0xff) as bv8
  }

  function Push(c: bv64, b: bv8): bv64 {
    (c << 8) | (b as bv64)
  }

  function Pop(c: bv64): bv64 {
    c >> 8
  }

  lemma PushPop(c: bv64)
    ensures Push(Pop(c), LowByte(c)) == c
  {
  }

  lemma PopPush(c: bv64, b: bv8, m: bv64)
    requires c & m == c && m & 0xff00_0000_0000_0000 == 0
    ensures Pop(Push(c, b)) == c && LowByte(Push(c, b)) == b
  {
  }

  lemma PushMask(c: bv64, b: bv8, m: bv64)
    requires c & m == c
    ensures Push(c, b) & NextMask(m) == Push(c, b)
  {
  }

  lemma PopMask(c: bv64, m: bv64)
    requires c & NextMask(m) == c
    ensures Pop(c) & m == Pop(c)
  {
  }

  lemma AllFit(c: bv64)
    ensures FitsIn(c, 8)
  {
    MaskBelowTop(7);
    assert Mask(4) == 0xffff_ffff;
    assert Mask(7) == 0xff_ffff_ffff_ffff;
    assert Mask(8) == 0xffff_ffff_ffff_ffff;
  }

  /** The low n bytes of a checksum, most significant first. */
  function Octets(c: bv64, n: nat): (s: seq<byte>)
    ensures |s| == n
  {
    if n == 0 then [] else Octets(Pop(c), n - 1) + [LowByte(c) as int]
  }

  function Unpack(s: seq<byte>): bv64 {
    if s == [] then 0 else Push(Unpack(s[..|s| - 1]), ToBv8(s[|s| - 1]))
  }

  /** The eight bytes `htobe64` leaves in memory. */
  function PutU64(c: bv64): (s: seq<byte>)
    ensures |s| == 8
  {
    Octets(c, 8)
  }

  function GetU64(s: seq<byte>): bv64
    requires |s| == 8
  {
    Unpack(s)
  }

  lemma ToBv8OfInt(v: bv8)
    ensures ToBv8(v as int) == v
  {
    SameInt(ToBv8(v as int), v);
  }

  lemma SameInt(v: bv8, w: bv8)
    requires v as int == w as int
    ensures v == w
  {
    assert (v as int) as bv8 == v && (w as int) as bv8 == w;
  }

  lemma {:induction false} UnpackOctets(c: bv64, n: nat)
    requires FitsIn(c, n)
    ensures Unpack(Octets(c, n)) == c
    decreases n
  {
    hide Push, Pop, LowByte, ToBv8, FitsIn;
    if n == 0 {
      NothingFits(c);
    } else {
      PopFits(c, n - 1);
      UnpackOctets(Pop(c), n - 1);
      PushPop(c);
      ToBv8OfInt(LowByte(c));
      assert Octets(c, n)[..n - 1] == Octets(Pop(c), n - 1);
    }
  }

  lemma NothingFits(c: bv64)
    requires FitsIn(c, 0)
    ensures c == 0
  {
  }

  lemma {:induction false} OctetsUnpack(s: seq<byte>)
    requires |s| <= 8
    ensures FitsIn(Unpack(s), |s|) && Octets(Unpack(s), |s|) == s
  {
    hide Push, Pop, LowByte, ToBv8, NextMask, FitsIn;
    if s == [] {
      ZeroFits();
    } else {
      var n, init, b := |s| - 1, s[..|s| - 1], ToBv8(s[|s| - 1]);
      OctetsUnpack(init);
      PushFits(Unpack(init), b, n);
      IntOfToBv8(s[n]);
    }
  }

  lemma PushFits(c: bv64, b: bv8, n: nat)
    requires n <= 7 && FitsIn(c, n)
    ensures FitsIn(Push(c, b), n + 1) && Pop(Push(c, b)) == c && LowByte(Push(c, b)) == b
  {
    hide Push, Pop, LowByte, Mask;
    MaskBelowTop(n);
    PopPush(c, b, Mask(n));
    FitsPush(c, b, n);
  }

  lemma FitsPush(c: bv64, b: bv8, n: nat)
    requires FitsIn(c, n)
    ensures FitsIn(Push(c, b), n + 1)
  {
    hide Push, NextMask;
    PushMask(c, b, Mask(n));
  }

  lemma PopFits(c: bv64, n: nat)
    requires FitsIn(c, n + 1)
    ensures FitsIn(Pop(c), n)
  {
    hide Pop, NextMask;
    PopMask(c, Mask(n));
  }

  lemma IntOfToBv8(b: byte)
    ensures ToBv8(b) as int == b
  {
  }

  lemma GetPutU64(c: bv64)
    ensures GetU64(PutU64(c)) == c
  {
    hide Unpack, Octets, FitsIn;
    AllFit(c);
    UnpackOctets(c, 8);
  }

  lemma PutGetU64(s: seq<byte>)
    requires |s| == 8
    ensures PutU64(GetU64(s)) == s
  {
    hide Unpack, Octets;
    OctetsUnpack(s);
  }

  function PopN(c: bv64, n: nat): bv64 {
    if n == 0 then c else Pop(PopN(c, n - 1))
  }

  lemma {:induction false} PopInside(c: bv64, n: nat)
    ensures PopN(Pop(c), n) == Pop(PopN(c, n))
    decreases n
  {
    hide Pop;
    if n > 0 {
      PopInside(c, n - 1);
    }
  }

  lemma {:induction false} OctetAt(c: bv64, n: nat, i: nat)
    requires i < n
    ensures Octets(c, n)[i] == LowByte(PopN(c, n - 1 - i)) as int
    decreases n
  {
    hide Pop, LowByte;
    if i < n - 1 {
      OctetAt(Pop(c), n - 1, i);
      PopInside(c, n - 2 - i);
    }
  }

  lemma PopShifts(c: bv64)
    ensures Pop(c) == c >> 8 && Pop(c >> 8) == c >> 16 && Pop(c >> 16) == c >> 24 && Pop(c >> 24) == c >> 32
    ensures Pop(c >> 32) == c >> 40 && Pop(c >> 40) == c >> 48 && Pop(c >> 48) == c >> 56
  {
  }

  lemma PopNShifts(c: bv64)
    ensures PopN(c, 0) == c && PopN(c, 1) == c >> 8 && PopN(c, 2) == c >> 16 && PopN(c, 3) == c >> 24
    ensures PopN(c, 4) == c >> 32 && PopN(c, 5) == c >> 40 && PopN(c, 6) == c >> 48 && PopN(c, 7) == c >> 56
  {
    hide Pop;
    PopShifts(c);
    assert PopN(c, 1) == c >> 8;
    assert PopN(c, 2) == c >> 16;
    assert PopN(c, 3) == c >> 24;
    assert PopN(c, 4) == c >> 32;
    assert PopN(c, 5) == c >> 40;
    assert PopN(c, 6) == c >> 48;
  }

  /** The stored checksum has its most significant byte first. */
  lemma NetworkOrder64(c: bv64)
    ensures var s := PutU64(c);
            && s[0] == LowByte(c >> 56) as int && s[1] == LowByte(c >> 48) as int && s[2] == LowByte(c >> 40) as int
            && s[3] == LowByte(c >> 32) as int && s[4] == LowByte(c >> 24) as int && s[5] == LowByte(c >> 16) as int
            && s[6] == LowByte(c >> 8) as int && s[7] == LowByte(c) as int
  {
    hide Pop, LowByte, PopN, Octets;
    PopNShifts(c);
    OctetAt(c, 8, 0);
    OctetAt(c, 8, 1);
    OctetAt(c, 8, 2);
    OctetAt(c, 8, 3);
    OctetAt(c, 8, 4);
    OctetAt(c, 8, 5);
    OctetAt(c, 8, 6);
    OctetAt(c, 8, 7);
  }
}
