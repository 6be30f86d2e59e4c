/** The closed taxonomy of operand classes (`OperandType` in instruction.rs):
    immediates, general-purpose registers, MMX/SSE/AVX and mask registers (with the
    `{k}` merge-masking and `{k}{z}` zero-masking forms), memory operands with
    their masking and `/mNNbcst` broadcast forms, vector-index memory, relative
    targets and the `{er}` / `{sae}` rounding pseudo-operands.

    Every variant has exactly one spelling, which the `AsRefStr` derive prints and the
    `EnumString` derive accepts, literally and case-sensitively: the brace and slash
    spellings are plain tokens, not a small grammar, and there is no fallback variant
    for an unknown token. */
module OperandTypes {
  import opened Wrappers

  datatype OperandType =
    | One
    | Three
    | Imm4
    | Imm8
    | Imm16
    | Imm32
    | Imm64
    | Al
    | Cl
    | R8
    | R8l
    | Ax
    | R16
    | R16l
    | Eax
    | R32
    | R32l
    | Rax
    | R64
    | Mm
    | Xmm0
    | Xmm
    | XmmK
    | XmmKZ
    | Ymm
    | YmmK
    | YmmKZ
    | Zmm
    | ZmmK
    | ZmmKZ
    | K
    | KK
    | Moffs32
    | Moffs64
    | M
    | M8
    | M16
    | M16K
    | M16KZ
    | M32
    | M32K
    | M32KZ
    | M32M16bcst
    | M64
    | M64K
    | M64KZ
    | M64M16bcst
    | M128
    | M128K
    | M128KZ
    | M256
    | M256K
    | M256KZ
    | M512
    | M512K
    | M512KZ
    | M64M32bcst
    | M128M32bcst
    | M256M32bcst
    | M512M32bcst
    | M128M16bcst
    | M128M64bcst
    | M256M16bcst
    | M256M64bcst
    | M512M16bcst
    | M512M64bcst
    | Vm32x
    | Vm32xK
    | Vm64x
    | Vm64xK
    | Vm32y
    | Vm32yK
    | Vm64y
    | Vm64yK
    | Vm32z
    | Vm32zK
    | Vm64z
    | Vm64zK
    | Rel8
    | Rel32
    | Er
    | Sae
    | Sibmem
    | Tmm

  /** The variant's spelling (`AsRefStr::as_ref`). */
  function ToStr(t: OperandType): string
  {
    match t
    case One => "1"
    case Three => "3"
    case Imm4 => "imm4"
    case Imm8 => "imm8"
    case Imm16 => "imm16"
    case Imm32 => "imm32"
    case Imm64 => "imm64"
    case Al => "al"
    case Cl => "cl"
    case R8 => "r8"
    case R8l => "r8l"
    case Ax => "ax"
    case R16 => "r16"
    case R16l => "r16l"
    case Eax => "eax"
    case R32 => "r32"
    case R32l => "r32l"
    case Rax => "rax"
    case R64 => "r64"
    case Mm => "mm"
    case Xmm0 => "xmm0"
    case Xmm => "xmm"
    case XmmK => "xmm{k}"
    case XmmKZ => "xmm{k}{z}"
    case Ymm => "ymm"
    case YmmK => "ymm{k}"
    case YmmKZ => "ymm{k}{z}"
    case Zmm => "zmm"
    case ZmmK => "zmm{k}"
    case ZmmKZ => "zmm{k}{z}"
    case K => "k"
    case KK => "k{k}"
    case Moffs32 => "moffs32"
    case Moffs64 => "moffs64"
    case M => "m"
    case M8 => "m8"
    case M16 => "m16"
    case M16K => "m16{k}"
    case M16KZ => "m16{k}{z}"
    case M32 => "m32"
    case M32K => "m32{k}"
    case M32KZ => "m32{k}{z}"
    case M32M16bcst => "m32/m16bcst"
    case M64 => "m64"
    case M64K => "m64{k}"
    case M64KZ => "m64{k}{z}"
    case M64M16bcst => "m64/m16bcst"
    case M128 => "m128"
    case M128K => "m128{k}"
    case M128KZ => "m128{k}{z}"
    case M256 => "m256"
    case M256K => "m256{k}"
    case M256KZ => "m256{k}{z}"
    case M512 => "m512"
    case M512K => "m512{k}"
    case M512KZ => "m512{k}{z}"
    case M64M32bcst => "m64/m32bcst"
    case M128M32bcst => "m128/m32bcst"
    case M256M32bcst => "m256/m32bcst"
    case M512M32bcst => "m512/m32bcst"
    case M128M16bcst => "m128/m16bcst"
    case M128M64bcst => "m128/m64bcst"
    case M256M16bcst => "m256/m16bcst"
    case M256M64bcst => "m256/m64bcst"
    case M512M16bcst => "m512/m16bcst"
    case M512M64bcst => "m512/m64bcst"
    case Vm32x => "vm32x"
    case Vm32xK => "vm32x{k}"
    case Vm64x => "vm64x"
    case Vm64xK => "vm64x{k}"
    case Vm32y => "vm32y"
    case Vm32yK => "vm32y{k}"
    case Vm64y => "vm64y"
    case Vm64yK => "vm64y{k}"
    case Vm32z => "vm32z"
    case Vm32zK => "vm32z{k}"
    case Vm64z => "vm64z"
    case Vm64zK => "vm64z{k}"
    case Rel8 => "rel8"
    case Rel32 => "rel32"
    case Er => "{er}"
    case Sae => "{sae}"
    case Sibmem => "sibmem"
    case Tmm => "tmm"
  }

  /** `OperandType::from_str`: the variant spelled exactly `s`, or none.

      A literal pattern only matches strings of its own length, so the spellings are
      looked up among those of the same length; this does not change which strings
      are accepted, and keeps each lookup small enough for the verifier. */
  function Parse(s: string): Option<OperandType>
  {
    match |s|
    case 1 => ParseLength1(s)
    case 2 => ParseLength2(s)
    case 3 => ParseLength3(s)
    case 4 => ParseLength4(s)
    case 5 => ParseLength5(s)
    case 6 => ParseLength6(s)
    case 7 => ParseLength7(s)
    case 8 => ParseLength8(s)
    case 9 => ParseLength9(s)
    case 10 => ParseLength10(s)
    case 11 => ParseLength11(s)
    case 12 => ParseLength12(s)
    case _ => None
  }

  /* The spellings of each length, and the variants they name. */

  function ParseLength1(s: string): (r: Option<OperandType>)
    requires |s| == 1
    ensures r.Some? ==> r.value in {One, Three, K, M}
  {
    match s
    case "1" => Some(One)
    case "3" => Some(Three)
    case "k" => Some(K)
    case "m" => Some(M)
    case _ => None
  }

  function ParseLength2(s: string): (r: Option<OperandType>)
    requires |s| == 2
    ensures r.Some? ==> r.value in {Al, Cl, R8, Ax, Mm, M8}
  {
    match s
    case "al" => Some(Al)
    case "cl" => Some(Cl)
    case "r8" => Some(R8)
    case "ax" => Some(Ax)
    case "mm" => Some(Mm)
    case "m8" => Some(M8)
    case _ => None
  }

  function ParseLength3(s: string): (r: Option<OperandType>)
    requires |s| == 3
    ensures r.Some? ==> r.value in {R8l, R16, Eax, R32, Rax, R64, Xmm, Ymm, Zmm, M16, M32, M64, Tmm}
  {
    match s
    case "r8l" => Some(R8l)
    case "r16" => Some(R16)
    case "eax" => Some(Eax)
    case "r32" => Some(R32)
    case "rax" => Some(Rax)
    case "r64" => Some(R64)
    case "xmm" => Some(Xmm)
    case "ymm" => Some(Ymm)
    case "zmm" => Some(Zmm)
    case "m16" => Some(M16)
    case "m32" => Some(M32)
    case "m64" => Some(M64)
    case "tmm" => Some(Tmm)
    case _ => None
  }

  function ParseLength4(s: string): (r: Option<OperandType>)
    requires |s| == 4
    ensures r.Some? ==> r.value in {Imm4, Imm8, R16l, R32l, Xmm0, KK, M128, M256, M512, Rel8, Er}
  {
    match s
    case "imm4" => Some(Imm4)
    case "imm8" => Some(Imm8)
    case "r16l" => Some(R16l)
    case "r32l" => Some(R32l)
    case "xmm0" => Some(Xmm0)
    case "k{k}" => Some(KK)
    case "m128" => Some(M128)
    case "m256" => Some(M256)
    case "m512" => Some(M512)
    case "rel8" => Some(Rel8)
    case "{er}" => Some(Er)
    case _ => None
  }

  function ParseLength5(s: string): (r: Option<OperandType>)
    requires |s| == 5
    ensures r.Some? ==> r.value in {Imm16, Imm32, Imm64, Vm32x, Vm64x, Vm32y, Vm64y, Vm32z, Vm64z, Rel32, Sae}
  {
    match s
    case "imm16" => Some(Imm16)
    case "imm32" => Some(Imm32)
    case "imm64" => Some(Imm64)
    case "vm32x" => Some(Vm32x)
    case "vm64x" => Some(Vm64x)
    case "vm32y" => Some(Vm32y)
    case "vm64y" => Some(Vm64y)
    case "vm32z" => Some(Vm32z)
    case "vm64z" => Some(Vm64z)
    case "rel32" => Some(Rel32)
    case "{sae}" => Some(Sae)
    case _ => None
  }

  function ParseLength6(s: string): (r: Option<OperandType>)
    requires |s| == 6
    ensures r.Some? ==> r.value in {XmmK, YmmK, ZmmK, M16K, M32K, M64K, Sibmem}
  {
    match s
    case "xmm{k}" => Some(XmmK)
    case "ymm{k}" => Some(YmmK)
    case "zmm{k}" => Some(ZmmK)
    case "m16{k}" => Some(M16K)
    case "m32{k}" => Some(M32K)
    case "m64{k}" => Some(M64K)
    case "sibmem" => Some(Sibmem)
    case _ => None
  }

  function ParseLength7(s: string): (r: Option<OperandType>)
    requires |s| == 7
    ensures r.Some? ==> r.value in {Moffs32, Moffs64, M128K, M256K, M512K}
  {
    match s
    case "moffs32" => Some(Moffs32)
    case "moffs64" => Some(Moffs64)
    case "m128{k}" => Some(M128K)
    case "m256{k}" => Some(M256K)
    case "m512{k}" => Some(M512K)
    case _ => None
  }

  function ParseLength8(s: string): (r: Option<OperandType>)
    requires |s| == 8
    ensures r.Some? ==> r.value in {Vm32xK, Vm64xK, Vm32yK, Vm64yK, Vm32zK, Vm64zK}
  {
    match s
    case "vm32x{k}" => Some(Vm32xK)
    case "vm64x{k}" => Some(Vm64xK)
    case "vm32y{k}" => Some(Vm32yK)
    case "vm64y{k}" => Some(Vm64yK)
    case "vm32z{k}" => Some(Vm32zK)
    case "vm64z{k}" => Some(Vm64zK)
    case _ => None
  }

  function ParseLength9(s: string): (r: Option<OperandType>)
    requires |s| == 9
    ensures r.Some? ==> r.value in {XmmKZ, YmmKZ, ZmmKZ, M16KZ, M32KZ, M64KZ}
  {
    match s
    case "xmm{k}{z}" => Some(XmmKZ)
    case "ymm{k}{z}" => Some(YmmKZ)
    case "zmm{k}{z}" => Some(ZmmKZ)
    case "m16{k}{z}" => Some(M16KZ)
    case "m32{k}{z}" => Some(M32KZ)
    case "m64{k}{z}" => Some(M64KZ)
    case _ => None
  }

  function ParseLength10(s: string): (r: Option<OperandType>)
    requires |s| == 10
    ensures r.Some? ==> r.value in {M128KZ, M256KZ, M512KZ}
  {
    match s
    case "m128{k}{z}" => Some(M128KZ)
    case "m256{k}{z}" => Some(M256KZ)
    case "m512{k}{z}" => Some(M512KZ)
    case _ => None
  }

  function ParseLength11(s: string): (r: Option<OperandType>)
    requires |s| == 11
    ensures r.Some? ==> r.value in {M32M16bcst, M64M16bcst, M64M32bcst}
  {
    match s
    case "m32/m16bcst" => Some(M32M16bcst)
    case "m64/m16bcst" => Some(M64M16bcst)
    case "m64/m32bcst" => Some(M64M32bcst)
    case _ => None
  }

  function ParseLength12(s: string): (r: Option<OperandType>)
    requires |s| == 12
    ensures r.Some? ==> r.value in {M128M32bcst, M256M32bcst, M512M32bcst, M128M16bcst, M128M64bcst, M256M16bcst, M256M64bcst, M512M16bcst, M512M64bcst}
  {
    match s
    case "m128/m32bcst" => Some(M128M32bcst)
    case "m256/m32bcst" => Some(M256M32bcst)
    case "m512/m32bcst" => Some(M512M32bcst)
    case "m128/m16bcst" => Some(M128M16bcst)
    case "m128/m64bcst" => Some(M128M64bcst)
    case "m256/m16bcst" => Some(M256M16bcst)
    case "m256/m64bcst" => Some(M256M64bcst)
    case "m512/m16bcst" => Some(M512M16bcst)
    case "m512/m64bcst" => Some(M512M64bcst)
    case _ => None
  }

  /** Parsing a variant's spelling gives that variant back. */
  lemma ParseToStr(t: OperandType)
    ensures Parse(ToStr(t)) == Some(t)
  {
    if t == One || t == Three || t == Imm4 || t == Imm8 || t == Imm16 ||
       t == Imm32 || t == Imm64 || t == Al || t == Cl || t == R8 || t == R8l ||
       t == Ax {
      ParseToStrBatch1(t);
    } else if t == R16 || t == R16l || t == Eax || t == R32 || t == R32l || t == Rax ||
              t == R64 || t == Mm || t == Xmm0 || t == Xmm || t == XmmK || t == XmmKZ {
      ParseToStrBatch2(t);
    } else if t == Ymm || t == YmmK || t == YmmKZ || t == Zmm || t == ZmmK ||
              t == ZmmKZ || t == K || t == KK || t == Moffs32 || t == Moffs64 {
      ParseToStrBatch3(t);
    } else if t == M || t == M8 || t == M16 || t == M16K || t == M16KZ || t == M32 ||
              t == M32K || t == M32KZ {
      ParseToStrBatch4(t);
    } else if t == M32M16bcst || t == M64 || t == M64K || t == M64KZ ||
              t == M64M16bcst || t == M128 || t == M128K || t == M128KZ {
      ParseToStrBatch5(t);
    } else if t == M256 || t == M256K || t == M256KZ || t == M512 || t == M512K ||
              t == M512KZ {
      ParseToStrBatch6(t);
    } else if t == M64M32bcst || t == M128M32bcst || t == M256M32bcst ||
              t == M512M32bcst || t == M128M16bcst || t == M128M64bcst {
      ParseToStrBatch7(t);
    } else if t == M256M16bcst || t == M256M64bcst || t == M512M16bcst ||
              t == M512M64bcst {
      ParseToStrBatch8(t);
    } else if t == Vm32x || t == Vm32xK || t == Vm64x || t == Vm64xK {
      ParseToStrBatch9(t);
    } else if t == Vm32y || t == Vm32yK || t == Vm64y || t == Vm64yK {
      ParseToStrBatch10(t);
    } else if t == Vm32z || t == Vm32zK || t == Vm64z || t == Vm64zK {
      ParseToStrBatch11(t);
    } else if t == Rel8 || t == Rel32 || t == Er {
      ParseToStrBatch12(t);
    } else {
      ParseToStrBatch13(t);
    }
  }

  /* The round trip a batch of variants at a time, in declaration order; later
     variants sit deeper in the spelling table, so their batches are smaller. */

  lemma ParseToStrBatch1(t: OperandType)
    requires t == One || t == Three || t == Imm4 || t == Imm8 || t == Imm16 ||
             t == Imm32 || t == Imm64 || t == Al || t == Cl || t == R8 || t == R8l ||
             t == Ax
    ensures Parse(ToStr(t)) == Some(t)
  {
  }

  lemma ParseToStrBatch2(t: OperandType)
    requires t == R16 || t == R16l || t == Eax || t == R32 || t == R32l || t == Rax ||
             t == R64 || t == Mm || t == Xmm0 || t == Xmm || t == XmmK || t == XmmKZ
    ensures Parse(ToStr(t)) == Some(t)
  {
  }

  lemma ParseToStrBatch3(t: OperandType)
    requires t == Ymm || t == YmmK || t == YmmKZ || t == Zmm || t == ZmmK ||
             t == ZmmKZ || t == K || t == KK || t == Moffs32 || t == Moffs64
    ensures Parse(ToStr(t)) == Some(t)
  {
  }

  lemma ParseToStrBatch4(t: OperandType)
    requires t == M || t == M8 || t == M16 || t == M16K || t == M16KZ || t == M32 ||
             t == M32K || t == M32KZ
    ensures Parse(ToStr(t)) == Some(t)
  {
  }

  lemma ParseToStrBatch5(t: OperandType)
    requires t == M32M16bcst || t == M64 || t == M64K || t == M64KZ ||
             t == M64M16bcst || t == M128 || t == M128K || t == M128KZ
    ensures Parse(ToStr(t)) == Some(t)
  {
  }

  lemma ParseToStrBatch6(t: OperandType)
    requires t == M256 || t == M256K || t == M256KZ || t == M512 || t == M512K ||
             t == M512KZ
    ensures Parse(ToStr(t)) == Some(t)
  {
  }

  lemma ParseToStrBatch7(t: OperandType)
    requires t == M64M32bcst || t == M128M32bcst || t == M256M32bcst ||
             t == M512M32bcst || t == M128M16bcst || t == M128M64bcst
    ensures Parse(ToStr(t)) == Some(t)
  {
  }

  lemma ParseToStrBatch8(t: OperandType)
    requires t == M256M16bcst || t == M256M64bcst || t == M512M16bcst ||
             t == M512M64bcst
    ensures Parse(ToStr(t)) == Some(t)
  {
  }

  lemma ParseToStrBatch9(t: OperandType)
    requires t == Vm32x || t == Vm32xK || t == Vm64x || t == Vm64xK
    ensures Parse(ToStr(t)) == Some(t)
  {
  }

  lemma ParseToStrBatch10(t: OperandType)
    requires t == Vm32y || t == Vm32yK || t == Vm64y || t == Vm64yK
    ensures Parse(ToStr(t)) == Some(t)
  {
  }

  lemma ParseToStrBatch11(t: OperandType)
    requires t == Vm32z || t == Vm32zK || t == Vm64z || t == Vm64zK
    ensures Parse(ToStr(t)) == Some(t)
  {
  }

  lemma ParseToStrBatch12(t: OperandType)
    requires t == Rel8 || t == Rel32 || t == Er
    ensures Parse(ToStr(t)) == Some(t)
  {
  }

  lemma ParseToStrBatch13(t: OperandType)
    requires t == Sae || t == Sibmem || t == Tmm
    ensures Parse(ToStr(t)) == Some(t)
  {
  }

  /* Two accepted strings of the same length that parse to the same variant are the
     same string; split by length so that each proof stays small. */

  lemma ParseInjectiveShort(a: string, b: string)
    requires 1 <= |a| <= 4 && |a| == |b|
    requires Parse(a).Some? && Parse(a) == Parse(b)
    ensures a == b
  {
    match |a|
    case 1 =>
    case 2 =>
    case 3 =>
    case 4 =>
  }

  lemma ParseInjectiveMedium(a: string, b: string)
    requires 5 <= |a| <= 8 && |a| == |b|
    requires Parse(a).Some? && Parse(a) == Parse(b)
    ensures a == b
  {
    match |a|
    case 5 =>
    case 6 =>
    case 7 =>
    case 8 =>
  }

  lemma ParseInjectiveLong(a: string, b: string)
    requires 9 <= |a| <= 12 && |a| == |b|
    requires Parse(a).Some? && Parse(a) == Parse(b)
    ensures a == b
  {
    match |a|
    case 9 =>
    case 10 =>
    case 11 =>
    case 12 =>
  }

  /** `Parse` never sends two different strings to the same variant. */
  lemma ParseInjective(a: string, b: string)
    requires Parse(a).Some? && Parse(a) == Parse(b)
    ensures a == b
  {
    if |a| == |b| {
      if |a| <= 4 {
        ParseInjectiveShort(a, b);
      } else if |a| <= 8 {
        ParseInjectiveMedium(a, b);
      } else {
        ParseInjectiveLong(a, b);
      }
    }
  }

  /** Whatever `Parse` accepts is the spelling of the variant it returns. */
  lemma ParseSound(s: string, t: OperandType)
    requires Parse(s) == Some(t)
    ensures ToStr(t) == s
  {
    ParseToStr(t);
    ParseInjective(s, ToStr(t));
  }

  /** `Parse` accepts a string exactly when it is the spelling of some variant, and
      then yields that variant: the two derives are inverse to each other. */
  lemma ParseExact(s: string, t: OperandType)
    ensures Parse(s) == Some(t) <==> ToStr(t) == s
  {
    ParseToStr(t);
    if Parse(s) == Some(t) {
      ParseSound(s, t);
    }
  }

  /** No two variants share a spelling. */
  lemma ToStrInjective(a: OperandType, b: OperandType)
    ensures ToStr(a) == ToStr(b) <==> a == b
  {
    ParseToStr(a);
    ParseToStr(b);
  }

  /** Matching is literal and case-sensitive: the brace and slash spellings are
      accepted as written, while a change of case, a missing brace or the empty
      string is not. */
  lemma ParseIsLiteral()
    ensures Parse("xmm{k}{z}") == Some(XmmKZ)
    ensures Parse("m64/m32bcst") == Some(M64M32bcst)
    ensures Parse("{sae}") == Some(Sae)
    ensures Parse("1") == Some(One)
    ensures Parse("XMM") == None
    ensures Parse("k{K}") == None
    ensures Parse("sae") == None
    ensures Parse("") == None
  {
  }
}
