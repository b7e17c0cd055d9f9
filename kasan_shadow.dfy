/**
 * The shadow memory as this layer uses it: kasan_poison, kasan_unpoison and
 * kasan_check live outside mm/kasan/common.c, so they appear here only through
 * their contracts.  Each byte of the address space is either accessible or
 * poisoned with the reason it was poisoned for; granules and the encoding of
 * partially valid granules are not part of this model.
 */
module KasanShadow {

  /** Why a range was poisoned (KASAN_FREE_PAGE, KASAN_PAGE_REDZONE, ...). */
  datatype PoisonKind = FreePage | PageRedzone | KmallocRedzone | KmallocFree

  datatype ByteState = Accessible | Poisoned(kind: PoisonKind)

  datatype Shadow = Shadow(state: int -> ByteState)
  {
    /** kasan_check: may the byte at addr be accessed? */
    predicate Check(addr: int)
    {
      state(addr).Accessible?
    }

    /** kasan_poison(addr, len, kind): the range becomes inaccessible for `kind`, nothing else changes. */
    function Poison(addr: int, len: int, kind: PoisonKind): (s: Shadow)
      ensures forall a :: addr <= a < addr + len ==> s.state(a) == Poisoned(kind)
      ensures forall a :: !(addr <= a < addr + len) ==> s.state(a) == state(a)
    {
      Shadow(a => if addr <= a < addr + len then Poisoned(kind) else state(a))
    }

    /** kasan_unpoison(addr, len): the range becomes accessible, nothing else changes. */
    function Unpoison(addr: int, len: int): (s: Shadow)
      ensures forall a :: addr <= a < addr + len ==> s.state(a) == Accessible
      ensures forall a :: !(addr <= a < addr + len) ==> s.state(a) == state(a)
    {
      Shadow(a => if addr <= a < addr + len then Accessible else state(a))
    }
  }

  /** Unpoisoning a range makes every byte of it pass the check. */
  lemma UnpoisonThenCheck(s: Shadow, addr: int, len: int, a: int)
    requires addr <= a < addr + len
    ensures s.Unpoison(addr, len).Check(a)
  {
  }

  /** Poisoning a range makes every byte of it fail the check, whatever the kind. */
  lemma PoisonThenCheck(s: Shadow, addr: int, len: int, kind: PoisonKind, a: int)
    requires addr <= a < addr + len
    ensures !s.Poison(addr, len, kind).Check(a)
  {
  }
}
