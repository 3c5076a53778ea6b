/**
 Which mailbox registers a CPU family uses, as chosen when an SMU handle is made.
 The protocol proofs rely on one fact about these constants only: all sixteen registers
 of the two mailboxes of a machine are different, word-aligned addresses.
 */
module SmuLayout {
  import opened Words

  datatype Family =
    | Unknown
    | Raven | Picasso | Renoir | Cezanne | Dali | Lucienne | VanGogh | Rembrandt | Mendocino
    | Phoenix | HawkPoint | DragonRange | KrackanPoint | StrixPoint | StrixHalo | FireRange

  /** The two firmware mailboxes a handle is created for. */
  datatype Mbox = MP1 | PSMU

  datatype Mailbox = Mailbox(msg: Word, rep: Word, argBase: Word)

  /** A register of a mailbox: response, one of six arguments, or the doorbell. */
  datatype Reg = Rep | Arg(index: nat) | Msg

  predicate IsReg(r: Reg) {
    r.Arg? ==> r.index < 6
  }

  function RegAddr(mb: Mailbox, r: Reg): Word {
    match r
    case Rep => mb.rep
    case Msg => mb.msg
    case Arg(index) => ArgAddr(mb.argBase, index)
  }

  function MailboxOf(family: Family, mbox: Mbox): Mailbox {
    match mbox
    case MP1 =>
      (match family
       case Rembrandt | VanGogh | Mendocino | Phoenix | HawkPoint =>
         Mailbox(0x3B10528, 0x3B10578, 0x3B10998)
       case KrackanPoint | StrixPoint | StrixHalo =>
         Mailbox(0x3B10928, 0x3B10978, 0x3B10998)
       case DragonRange | FireRange =>
         Mailbox(0x3B10530, 0x3B1057C, 0x3B109C4)
       case _ =>
         Mailbox(0x3B10528, 0x3B10564, 0x3B10998))
    case PSMU =>
      (match family
       case DragonRange | FireRange =>
         Mailbox(0x3B10524, 0x3B10570, 0x3B10A40)
       case _ =>
         Mailbox(0x3B10A20, 0x3B10A80, 0x3B10A88))
  }

  /** No two registers of the two mailboxes share an address, and all are word-aligned. */
  ghost predicate Disjoint(mp1: Mailbox, psmu: Mailbox) {
    && (forall r, q | IsReg(r) && IsReg(q) ::
          && (RegAddr(mp1, r) == RegAddr(mp1, q) ==> r == q)
          && (RegAddr(psmu, r) == RegAddr(psmu, q) ==> r == q)
          && RegAddr(mp1, r) != RegAddr(psmu, q))
    && (forall r | IsReg(r) :: RegAddr(mp1, r) % 4 == 0 && RegAddr(psmu, r) % 4 == 0)
  }

  /** A mailbox as address ranges: the argument window must not wrap or swallow the other two. */
  predicate WellSeparated(mb: Mailbox) {
    && mb.argBase + 24 <= WORD_LIMIT
    && mb.msg != mb.rep
    && !InArgWindow(mb, mb.msg)
    && !InArgWindow(mb, mb.rep)
    && mb.msg % 4 == 0 && mb.rep % 4 == 0 && mb.argBase % 4 == 0
  }

  predicate InArgWindow(mb: Mailbox, addr: Word) {
    mb.argBase <= addr < mb.argBase + 24
  }

  predicate Clear(mb: Mailbox, other: Mailbox) {
    && !InArgWindow(mb, other.msg) && !InArgWindow(mb, other.rep)
    && mb.msg != other.msg && mb.msg != other.rep
    && mb.rep != other.msg && mb.rep != other.rep
  }

  /** The address of a register without the 32-bit wrap-around. */
  function PlainAddr(mb: Mailbox, r: Reg): nat {
    match r
    case Rep => mb.rep
    case Msg => mb.msg
    case Arg(index) => mb.argBase + 4 * index
  }

  lemma RegAddrIsPlain(mb: Mailbox, r: Reg)
    requires WellSeparated(mb) && IsReg(r)
    ensures RegAddr(mb, r) == PlainAddr(mb, r)
    ensures RegAddr(mb, r) % 4 == 0
  {
  }

  lemma SeparatedIsDisjoint(mp1: Mailbox, psmu: Mailbox)
    requires WellSeparated(mp1) && WellSeparated(psmu)
    requires Clear(mp1, psmu) && Clear(psmu, mp1)
    requires mp1.argBase + 24 <= psmu.argBase || psmu.argBase + 24 <= mp1.argBase
    ensures Disjoint(mp1, psmu)
  {
    forall r | IsReg(r)
      ensures RegAddr(mp1, r) == PlainAddr(mp1, r) && RegAddr(psmu, r) == PlainAddr(psmu, r)
      ensures RegAddr(mp1, r) % 4 == 0 && RegAddr(psmu, r) % 4 == 0
    {
      RegAddrIsPlain(mp1, r);
      RegAddrIsPlain(psmu, r);
    }
    forall r, q | IsReg(r) && IsReg(q)
      ensures RegAddr(mp1, r) == RegAddr(mp1, q) ==> r == q
      ensures RegAddr(psmu, r) == RegAddr(psmu, q) ==> r == q
      ensures RegAddr(mp1, r) != RegAddr(psmu, q)
    {
      PlainDistinct(mp1, psmu, r, q);
    }
  }

  lemma PlainDistinct(mp1: Mailbox, psmu: Mailbox, r: Reg, q: Reg)
    requires WellSeparated(mp1) && WellSeparated(psmu)
    requires Clear(mp1, psmu) && Clear(psmu, mp1)
    requires mp1.argBase + 24 <= psmu.argBase || psmu.argBase + 24 <= mp1.argBase
    requires IsReg(r) && IsReg(q)
    ensures PlainAddr(mp1, r) == PlainAddr(mp1, q) ==> r == q
    ensures PlainAddr(psmu, r) == PlainAddr(psmu, q) ==> r == q
    ensures PlainAddr(mp1, r) != PlainAddr(psmu, q)
  {
  }

  /** Every family the library knows gets a usable register layout. */
  lemma LayoutDisjoint(family: Family)
    ensures Disjoint(MailboxOf(family, MP1), MailboxOf(family, PSMU))
  {
    SeparatedIsDisjoint(MailboxOf(family, MP1), MailboxOf(family, PSMU));
  }
}
