/**
 The /dev/mem window onto the PM table: the page-aligned base, the offset of the table inside
 the mapping and the mapped length, computed in 64-bit words with a bit mask, as the C code
 does, and what that arithmetic means.
 */
module PageWindow {

  const MAX_TABLE_SIZE: nat := 0x2000
  const LIMIT64: nat := 0x1_0000_0000_0000_0000

  function Pow2(k: nat): (p: nat)
    ensures p > 0
  {
    if k == 0 then 1 else 2 * Pow2(k - 1)
  }

  /** Bitwise and, digit by digit. */
  function And(a: nat, b: nat): nat {
    if a == 0 || b == 0 then 0
    else 2 * And(a / 2, b / 2) + (if a % 2 == 1 && b % 2 == 1 then 1 else 0)
  }

  /** Bitwise complement of a 64-bit word. */
  function Not64(x: nat): nat
    requires x < LIMIT64
  {
    LIMIT64 - 1 - x
  }

  predicate PageAligned(base: nat, k: nat) {
    base % Pow2(k) == 0
  }

  /** Where the table lies: mapping base, offset of the table in it, mapped length. */
  datatype Window = Window(aligned: nat, offset: nat, len: nat)

  function Wanted(size: nat): nat {
    if size != 0 && size <= MAX_TABLE_SIZE then size else MAX_TABLE_SIZE
  }

  /** The arithmetic of init_mem_obj_mem, including the wrap-around of size_t. */
  function MapWindow(addr: nat, page: nat, size: nat): Window
    requires addr < LIMIT64 && 0 < page <= LIMIT64
  {
    var aligned := And(addr, Not64(page - 1));
    var offset := (addr - aligned) % LIMIT64;
    Window(aligned, offset, WholePages((offset + Wanted(size) + page - 1) % LIMIT64, page))
  }

  /** `x / page * page`. */
  function WholePages(x: nat, page: nat): (r: nat)
    requires page > 0
    ensures r == x - x % page
  {
    x / page * page
  }

  // ---------------------------------------------------------------- the mask

  lemma NoMultipleBetween(d: int, m: nat)
    requires 0 - m < d * m < m
    ensures d == 0
  {
  }

  lemma DivModUnique(a: nat, m: nat, q: nat, r: nat)
    requires m > 0 && r < m && a == q * m + r
    ensures a / m == q && a % m == r
  {
    assert (a / m - q) * m == r - a % m;
    NoMultipleBetween(a / m - q, m);
  }

  lemma SmallRemainder(a: nat, m: nat)
    requires a < m
    ensures a % m == a
  {
  }

  /** The remainder by 2m is made of the lowest bit and the remainder of the rest by m. */
  lemma HalveRemainder(a: nat, m: nat)
    requires m > 0
    ensures a % (2 * m) == 2 * (a / 2 % m) + a % 2
  {
    var q, s := a / 2 / m, a / 2 % m;
    assert a == q * (2 * m) + (2 * s + a % 2) by {
      assert a / 2 == q * m + s;
      assert 2 * (q * m) == q * (2 * m);
    }
    DivModUnique(a, 2 * m, q, 2 * s + a % 2);
  }

  /** Binary digit `i` of `x`. */
  function Bit(x: nat, i: nat): nat
    decreases i
  {
    if i == 0 then x % 2 else Bit(x / 2, i - 1)
  }

  /** `And` is the bitwise conjunction. */
  lemma {:induction false} AndBits(a: nat, b: nat, i: nat)
    ensures Bit(And(a, b), i) == Bit(a, i) * Bit(b, i)
    ensures Bit(0, i) == 0 && Bit(a, i) <= 1 && Bit(b, i) <= 1
    decreases i
  {
    if i > 0 {
      AndBits(a / 2, b / 2, i - 1);
    }
  }

  lemma Pow2Mono(k: nat, w: nat)
    requires k <= w
    ensures Pow2(k) <= Pow2(w)
  {
  }

  /** Masking `a` by `b` rounds it down to a multiple of `m`. */
  predicate Rounds(a: nat, b: nat, m: nat) {
    m > 0 && And(a, b) == a - a % m
  }

  lemma EvenMask(a: nat, h: nat, m: nat)
    requires Rounds(a / 2, h, m)
    ensures Rounds(a, 2 * h, 2 * m)
  {
    HalveRemainder(a, m);
    assert 2 * h / 2 == h && 2 * h % 2 == 0;
  }

  lemma NoMask(a: nat, m: nat)
    requires a < m
    ensures Rounds(a, 0, m)
  {
    SmallRemainder(a, m);
  }

  lemma OddMask(a: nat, h: nat)
    requires Rounds(a / 2, h, 1)
    ensures Rounds(a, 2 * h + 1, 1)
  {
    assert (2 * h + 1) / 2 == h && (2 * h + 1) % 2 == 1;
  }

  /** Masking with w - k leading ones rounds down to a multiple of 2^k. */
  lemma {:induction false} MaskRounds(a: nat, k: nat, w: nat)
    requires k <= w && a < Pow2(w)
    ensures Pow2(k) <= Pow2(w) && Rounds(a, Pow2(w) - Pow2(k), Pow2(k))
    decreases w
  {
    Pow2Mono(k, w);
    hide Rounds;
    if w == k {
      NoMask(a, Pow2(k));
    } else if k > 0 {
      MaskRounds(a / 2, k - 1, w - 1);
      EvenMask(a, Pow2(w - 1) - Pow2(k - 1), Pow2(k - 1));
    } else {
      MaskRounds(a / 2, 0, w - 1);
      OddMask(a, Pow2(w - 1) - 1);
    }
  }

  lemma Pow2Of64()
    ensures Pow2(64) == LIMIT64 && Pow2(62) == LIMIT64 / 4
  {
    assert Pow2(8) == 256;
    assert Pow2(16) == 65536;
    assert Pow2(24) == 0x100_0000;
    assert Pow2(32) == 0x1_0000_0000;
    assert Pow2(40) == 0x100_0000_0000;
    assert Pow2(48) == 0x1_0000_0000_0000;
    assert Pow2(56) == 0x100_0000_0000_0000;
    assert Pow2(62) == 0x4000_0000_0000_0000;
  }

  // ---------------------------------------------------------------- main result

  lemma RoundUp(x: nat, page: nat)
    requires page > 0
    ensures
      var up := WholePages(x + page - 1, page);
      up % page == 0 && x <= up < x + page
  {
    var q := (x + page - 1) / page;
    DivModUnique(q * page, page, q, 0);
  }

  lemma RoundDown(x: nat, page: nat)
    requires page > 0
    ensures
      var down := x - x % page;
      0 <= down && down % page == 0 && down <= x < down + page
  {
    DivModUnique(x / page * page, page, x / page, 0);
  }

  /** The masked base is the address rounded down, for a page size of 2^k. */
  lemma AlignedBase(addr: nat, k: nat)
    requires addr < LIMIT64 && k <= 62
    ensures Pow2(k) <= LIMIT64 / 4
    ensures And(addr, Not64(Pow2(k) - 1)) == addr - addr % Pow2(k)
  {
    Pow2Of64();
    Pow2Mono(k, 62);
    MaskRounds(addr, k, 64);
  }

  /**
   For every physical address and page size a positive long can hold: the base is the largest
   page multiple not above the address, the length the least page multiple that covers the
   table, and so at least `size` bytes of table are readable through the mapping.
   */
  lemma WindowCoversTable(addr: nat, k: nat, size: nat)
    requires addr < LIMIT64 && k <= 62 && 1 <= size <= MAX_TABLE_SIZE
    ensures Pow2(k) <= LIMIT64
    ensures
      var page := Pow2(k);
      var w := MapWindow(addr, page, size);
      && w.aligned % page == 0 && w.aligned <= addr < w.aligned + page
      && w.aligned + w.offset == addr
      && w.len % page == 0
      && w.offset + size <= w.len < w.offset + size + page
      && size <= w.len - w.offset
  {
    AlignedBase(addr, k);
    var page := Pow2(k);
    RoundDown(addr, page);
    var offset := addr % page;
    RoundUp(offset + size, page);
    SmallRemainder(offset, LIMIT64);
    SmallRemainder(offset + size + page - 1, LIMIT64);
  }
}
