/**
 * Constants and record layouts shared by the root partition launcher and the
 * child it boots: the fixed virtual addresses, the page size, the VIDT table
 * and the saved execution context `user_ctx_t` with its `pushad_regs_t`.
 */
module Launcher {

  /** A C `uint32_t`. */
  type u32 = x: int | 0 <= x < 0x1_0000_0000

  const WORD_RANGE: int := 0x1_0000_0000

  /** `a + b` on `uint32_t`: wraps modulo 2^32. */
  function Add32(a: u32, b: u32): u32 {
    (a + b) % WORD_RANGE
  }

  /** `a - b` on `uint32_t`: wraps modulo 2^32. */
  function Sub32(a: u32, b: u32): u32 {
    (a - b) % WORD_RANGE
  }

  const INITIAL_STACK_TOP: u32 := 0xffffe000
  const BOOTINFO_ADDR: u32 := 0xffffc000
  const VIDT_ADDR: u32 := 0xfffff000
  const PAGE_SIZE: u32 := 4096

  /** Size in bytes of a `uint32_t` and of a 32-bit pointer. */
  const WORD_SIZE: nat := 4

  /** Entries of a VIDT: the table of context pointers at `VIDT_ADDR`. */
  const VIDT_ENTRIES: nat := 256

  /** Address of entry `i` of the VIDT, `&VIDT[i]`. */
  function VidtSlot(i: nat): (a: u32)
    requires i < VIDT_ENTRIES
    ensures a % WORD_SIZE == 0
    ensures VIDT_ADDR <= a && a + WORD_SIZE <= VIDT_ADDR + PAGE_SIZE
  {
    VIDT_ADDR + WORD_SIZE * i
  }

  /** The eight registers saved by `pushad`, in the order of the record. */
  datatype PushadRegs = PushadRegs(
    edi: u32, esi: u32, ebp: u32, esp: u32,
    ebx: u32, edx: u32, ecx: u32, eax: u32)

  /** The four reserved words at the end of a context. */
  type Nfu = s: seq<u32> | |s| == 4 witness [0, 0, 0, 0]

  /** `user_ctx_t`: a saved execution context. */
  datatype UserCtx = UserCtx(
    eip: u32, pipflags: u32, eflags: u32,
    regs: PushadRegs,
    valid: u32,
    nfu: Nfu)

  /** Number of 32-bit words of a `user_ctx_t`. */
  const CTX_WORDS: nat := 16

  /** `sizeof(user_ctx_t)`. */
  const SIZEOF_USER_CTX: nat := WORD_SIZE * CTX_WORDS

  type NfuIndex = i: nat | i < 4

  /** The fields of a `user_ctx_t`, the register block flattened. */
  datatype CtxField =
    | Eip | Pipflags | Eflags
    | Edi | Esi | Ebp | Esp | Ebx | Edx | Ecx | Eax
    | Valid
    | NfuWord(i: NfuIndex)

  /** Position of a field among the words of the record. */
  function FieldIndex(f: CtxField): (i: nat)
    ensures i < CTX_WORDS
  {
    match f
    case Eip => 0
    case Pipflags => 1
    case Eflags => 2
    case Edi => 3
    case Esi => 4
    case Ebp => 5
    case Esp => 6
    case Ebx => 7
    case Edx => 8
    case Ecx => 9
    case Eax => 10
    case Valid => 11
    case NfuWord(i) => 12 + i
  }

  /** `offsetof(user_ctx_t, f)`: every field is a whole word inside the record. */
  function FieldOffset(f: CtxField): (off: nat)
    ensures off % WORD_SIZE == 0 && off + WORD_SIZE <= SIZEOF_USER_CTX
  {
    WORD_SIZE * FieldIndex(f)
  }

  /** The value of field `f` of `c`. */
  function Get(c: UserCtx, f: CtxField): u32 {
    match f
    case Eip => c.eip
    case Pipflags => c.pipflags
    case Eflags => c.eflags
    case Edi => c.regs.edi
    case Esi => c.regs.esi
    case Ebp => c.regs.ebp
    case Esp => c.regs.esp
    case Ebx => c.regs.ebx
    case Edx => c.regs.edx
    case Ecx => c.regs.ecx
    case Eax => c.regs.eax
    case Valid => c.valid
    case NfuWord(i) => c.nfu[i]
  }

  /** The words of `pushad_regs_t` in memory order. */
  function RegsWords(r: PushadRegs): (w: seq<u32>)
    ensures |w| == 8
  {
    [r.edi, r.esi, r.ebp, r.esp, r.ebx, r.edx, r.ecx, r.eax]
  }

  /**
   * The memory image of a context, one word per field: three header words,
   * the eight registers, `valid`, then the four reserved words.
   */
  function Words(c: UserCtx): (w: seq<u32>)
    ensures |w| == CTX_WORDS
    ensures forall f :: w[FieldIndex(f)] == Get(c, f)
  {
    [c.eip, c.pipflags, c.eflags] + RegsWords(c.regs) + [c.valid] + c.nfu
  }

  /** The context whose memory image is `w`. */
  function FromWords(w: seq<u32>): (c: UserCtx)
    requires |w| == CTX_WORDS
    ensures Words(c) == w
  {
    UserCtx(w[0], w[1], w[2],
            PushadRegs(w[3], w[4], w[5], w[6], w[7], w[8], w[9], w[10]),
            w[11], w[12..16])
  }

  /** Decoding the image of a context gives the context back. */
  lemma WordsRoundTrip(c: UserCtx)
    ensures FromWords(Words(c)) == c
  {
    var w := Words(c);
    assert w[12..16] == c.nfu;
  }

  /** Two different fields never share a word of the record. */
  lemma FieldIndexInjective(f: CtxField, g: CtxField)
    ensures FieldIndex(f) == FieldIndex(g) ==> f == g
  {
  }

  /** Every word of the record belongs to a field. */
  lemma FieldIndexOnto(i: nat)
    requires i < CTX_WORDS
    ensures exists f :: FieldIndex(f) == i
  {
    if i < 12 {
      var all := [Eip, Pipflags, Eflags, Edi, Esi, Ebp, Esp, Ebx, Edx, Ecx, Eax, Valid];
      assert FieldIndex(all[i]) == i;
    } else {
      assert FieldIndex(NfuWord(i - 12)) == i;
    }
  }

  /** A context is determined by the values of its fields. */
  lemma FieldsDetermine(c: UserCtx, d: UserCtx)
    requires forall f :: Get(c, f) == Get(d, f)
    ensures c == d
  {
    forall i | 0 <= i < CTX_WORDS
      ensures Words(c)[i] == Words(d)[i]
    {
      FieldIndexOnto(i);
      var f :| FieldIndex(f) == i;
    }
    assert Words(c) == Words(d);
    WordsRoundTrip(c);
    WordsRoundTrip(d);
  }

  /**
   * The fixed addresses are page aligned; the stack-top page and the VIDT
   * page are adjacent; the boot information lies below both; a VIDT fits in
   * one page.
   */
  lemma AddressLayout()
    ensures INITIAL_STACK_TOP % PAGE_SIZE == 0
    ensures BOOTINFO_ADDR % PAGE_SIZE == 0
    ensures VIDT_ADDR % PAGE_SIZE == 0
    ensures INITIAL_STACK_TOP + PAGE_SIZE == VIDT_ADDR
    ensures BOOTINFO_ADDR + PAGE_SIZE <= INITIAL_STACK_TOP
    ensures VIDT_ADDR + WORD_SIZE * VIDT_ENTRIES <= VIDT_ADDR + PAGE_SIZE
    ensures VIDT_ADDR + PAGE_SIZE == WORD_RANGE
    ensures SIZEOF_USER_CTX == 64
  {
  }
}
