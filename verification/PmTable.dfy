/**
 The power-metric table cache of a library handle: lazy initialisation, the mutual recursion of
 init_table and refresh_table that a busy flag breaks, conditional transfers with retries, and
 the agreement of table size and buffer capacity.
 */
module PmTable {
  import opened Words
  import opened SmuLayout
  import MailboxProtocol
  import opened PageWindow
  import opened ReadFull
  import opened Setters

  // ---------------------------------------------------------------- tables by family and version

  datatype Purpose = Version | Address | Transfer

  predicate OldFamily(f: Family) {
    f.Raven? || f.Picasso? || f.Dali?
  }

  predicate NewFamily(f: Family) {
    f.Renoir? || f.Lucienne? || f.Cezanne? || WideAddress(f)
  }

  /** Families whose table address has 64 bits. */
  predicate WideAddress(f: Family) {
    f.Rembrandt? || f.Phoenix? || f.HawkPoint? || f.KrackanPoint? || f.StrixPoint? || f.StrixHalo?
  }

  /** The PSMU message for a purpose, or None when the family is not supported. */
  function MessageId(f: Family, purpose: Purpose): Option<Word> {
    match purpose
    case Version => if OldFamily(f) then Some(0xC) else if NewFamily(f) then Some(0x6) else None
    case Address => if OldFamily(f) then Some(0xB) else if NewFamily(f) then Some(0x66) else None
    case Transfer => if OldFamily(f) then Some(0x3D) else if NewFamily(f) then Some(0x65) else None
  }

  function MessageArg(f: Family, purpose: Purpose): Word {
    if OldFamily(f) && purpose != Version then 3 else 0
  }

  /** Table size in bytes by table version; unknown versions get a probe size. */
  function SizeOf(ver: Word): (size: nat)
    ensures 24 <= size <= MAX_TABLE_SIZE && size % 4 == 0
  {
    match ver
    case 0x1E0001 => 0x568
    case 0x1E0002 => 0x580
    case 0x1E0003 => 0x578
    case 0x1E0004 | 0x1E0005 | 0x1E000A | 0x1E0101 => 0x608
    case 0x370000 => 0x794
    case 0x370001 => 0x884
    case 0x370002 => 0x88C
    case 0x370003 | 0x370004 => 0x8AC
    case 0x370005 => 0x8C8
    case 0x3F0000 => 0x7AC
    case 0x400001 => 0x910
    case 0x400002 => 0x928
    case 0x400003 => 0x94C
    case 0x400004 | 0x400005 => 0x944
    case 0x450004 => 0xAA4
    case 0x450005 => 0xAB0
    case 0x4C0003 => 0xB18
    case 0x4C0004 => 0xB1C
    case 0x4C0005 => 0xAF8
    case 0x4C0006 => 0xAFC
    case 0x4C0008 => 0xAF0
    case 0x4C0007 | 0x4C0009 => 0xB00
    case 0x5D0008 | 0x5D0009 | 0x5D000B => 0xD54
    case 0x64020C => 0xE50
    case _ => 0x1000
  }

  /** A message sent to the PSMU mailbox, and the call of smu_service_req it was. */
  datatype Message = Message(purpose: Purpose, call: Call) {
    function Resp(): Word {
      call.resp
    }

    /** The two results of the call that table messages use. */
    function Res0(): Word {
      if |call.rets| > 0 then call.rets[0] else 0
    }

    function Res1(): Word {
      if |call.rets| > 1 then call.rets[1] else 0
    }
  }

  /** How many transfer messages a message sequence contains. */
  function Transfers(sent: seq<Message>): nat {
    if sent == [] then 0
    else Transfers(sent[..|sent| - 1]) + (if sent[|sent| - 1].purpose == Transfer then 1 else 0)
  }

  lemma TransfersSnoc(sent: seq<Message>, m: Message)
    ensures Transfers(sent + [m]) == Transfers(sent) + (if m.purpose == Transfer then 1 else 0)
  {
    assert (sent + [m])[..|sent|] == sent;
  }

  /** The float at the start of the table is +0 or -0 (little-endian IEEE single). */
  predicate FirstIsZero(bytes: seq<Byte>)
    requires |bytes| >= 4
  {
    bytes[0] == 0 && bytes[1] == 0 && bytes[2] == 0 && (bytes[3] == 0 || bytes[3] == 0x80)
  }

  /** The bits of the first table word. */
  function FirstWord(bytes: seq<Byte>): nat
    requires |bytes| >= 4
  {
    bytes[0] as nat + 0x100 * bytes[1] as nat + 0x1_0000 * bytes[2] as nat + 0x100_0000 * bytes[3] as nat
  }

  /** All bits but the sign are clear: as an IEEE single this is +0 or -0, and no other word is. */
  lemma FirstIsZeroExact(bytes: seq<Byte>)
    requires |bytes| >= 4
    ensures FirstIsZero(bytes) <==> FirstWord(bytes) == 0 || FirstWord(bytes) == 0x8000_0000
  {
  }

  /** The messages of one request_transfer_table: again after each prerequisite rejection, at most twice. */
  predicate TransferRetries(msgs: seq<Message>) {
    && 1 <= |msgs| <= 3
    && (forall j | 0 <= j < |msgs| - 1 :: msgs[j].Resp() == REP_REJECTED_PREREQ)
    && (|msgs| < 3 ==> msgs[|msgs| - 1].Resp() != REP_REJECTED_PREREQ)
    && (forall j | 0 <= j < |msgs| :: msgs[j].purpose == Transfer)
  }

  /** The message is the one the family has for its purpose. */
  predicate Fitting(f: Family, m: Message) {
    && MessageId(f, m.purpose).Some?
    && m.call.req == RequestFor(PSMU, MessageId(f, m.purpose).value, MessageArg(f, m.purpose))
  }

  /** The calls of a list of messages. */
  function Calls(msgs: seq<Message>): (r: seq<Call>)
    ensures |r| == |msgs| && forall i | 0 <= i < |r| :: r[i] == msgs[i].call
  {
    seq(|msgs|, i requires 0 <= i < |msgs| => msgs[i].call)
  }

  /** Between two moments the handle has requested exactly what it has sent: table messages of its family. */
  ghost predicate Logged(f: Family, sent: seq<Message>, requests: seq<Call>, sent': seq<Message>, requests': seq<Call>) {
    && sent <= sent' && requests' == requests + Calls(sent'[|sent|..])
    && forall i | |sent| <= i < |sent'| :: Fitting(f, sent'[i])
  }

  lemma CallsOf(a: seq<Message>, b: seq<Message>)
    ensures Calls(a + b) == Calls(a) + Calls(b)
  {
  }

  lemma Rest<T>(a: seq<T>, b: seq<T>, c: seq<T>)
    requires a <= b <= c
    ensures a <= c && c[|a|..] == b[|a|..] + c[|b|..]
    ensures forall i | 0 <= i < |b| :: c[i] == b[i]
  {
  }

  lemma LoggedTrans(f: Family, a: seq<Message>, r: seq<Call>, b: seq<Message>, s: seq<Call>, c: seq<Message>, t: seq<Call>)
    requires Logged(f, a, r, b, s) && Logged(f, b, s, c, t)
    ensures Logged(f, a, r, c, t)
  {
    hide Fitting;
    hide Calls;
    Rest(a, b, c);
    CallsOf(b[|a|..], c[|b|..]);
  }

  lemma LoggedRefl(f: Family, a: seq<Message>, r: seq<Call>)
    ensures Logged(f, a, r, a, r)
  {
  }

  /** From number `n` on, only transfers. */
  ghost predicate OnlyTransfers(sent: seq<Message>, n: nat) {
    forall i | n <= i < |sent| :: sent[i].purpose == Transfer
  }

  /** From number `n` on: the version, then the address, then transfers. */
  ghost predicate InitMessages(sent: seq<Message>, n: nat) {
    && (|sent| > n ==> sent[n].purpose == Version)
    && (|sent| > n + 1 ==> sent[n + 1].purpose == Address && sent[n].Resp() == REP_OK)
    && (|sent| > n + 2 ==> sent[n + 1].Resp() == REP_OK)
    && OnlyTransfers(sent, n + 2)
  }

  /** The version and the address have been answered. */
  ghost predicate Introduced(sent: seq<Message>, n: nat) {
    |sent| >= n + 2 && InitMessages(sent, n) && sent[n].Resp() == REP_OK && sent[n + 1].Resp() == REP_OK
  }

  /** The table address of an answered address message. */
  function AddressIn(f: Family, m: Message): nat {
    m.Res0() + if WideAddress(f) then m.Res1() * WORD_LIMIT else 0
  }

  /** Version and address have been answered, and neither is zero. */
  ghost predicate Addressed(f: Family, sent: seq<Message>, n: nat) {
    && |sent| >= n + 2
    && sent[n].Resp() == REP_OK && sent[n].Res0() != 0
    && sent[n + 1].Resp() == REP_OK && AddressIn(f, sent[n + 1]) != 0
  }

  /**
   How far the messages of an initialisation go: the version if the family has one, the address
   after a good version, and transfers, on the mapped backend only, after a good address and if
   the operating system refused nothing.
   */
  ghost predicate GoesAsFar(f: Family, sent: seq<Message>, n: nat, mapped: bool, granted: bool) {
    && (|sent| >= n + 1 <==> MessageId(f, Version).Some?)
    && (|sent| >= n + 2 <==> |sent| >= n + 1 && sent[n].Resp() == REP_OK && sent[n].Res0() != 0)
    && (|sent| >= n + 3 <==> mapped && Addressed(f, sent, n) && granted)
  }

  lemma MoreTransfers(sent: seq<Message>, later: seq<Message>, n: nat)
    requires Introduced(sent, n) && sent <= later && OnlyTransfers(later, |sent|)
    ensures Introduced(later, n)
    ensures forall f: Family :: Addressed(f, sent, n) ==> Addressed(f, later, n)
  {
  }

  /** A table size the library accepts from the driver. */
  predicate PlausibleSize(size: nat) {
    size != 0 && size % 4 == 0 && size <= MAX_TABLE_SIZE
  }

  // ---------------------------------------------------------------- the operating system

  /** What the operating system may refuse: memory, opening /dev/mem, a mapping. */
  class Supply {
    ghost var denied: nat

    constructor ()
    {
      denied := 0;
    }

    method Grant() returns (ok: bool)
      modifies this
      ensures denied == old(denied) + if ok then 0 else 1
    {
      ok := *;
      if !ok {
        denied := denied + 1;
      }
    }
  }

  // ---------------------------------------------------------------- the handle

  class RyzenAccess {
    const smu: Handle           // the mailboxes
    const family: Family
    const isSmu: bool           // the ryzen_smu driver is in use
    const kmodSize: nat         // table size the driver reports, 0 if it has none
    const pmFile: Attribute     // the driver's pm_table attribute
    const supply: Supply
    const pageBits: nat         // the page size is 2^pageBits
    var tableAddr: nat
    var tableVer: Word
    var tableSize: nat
    var values: array?<Byte>    // the cache, table_values
    var busy: bool              // table_init_busy
    // the /dev/mem window
    var mapped: bool
    var mapLen: nat
    var mapOffset: nat
    ghost var mapBase: nat      // the physical address that was mapped
    ghost var sent: seq<Message>
    ghost var seen: seq<seq<Byte>>   // what was in the mapping whenever the library looked

    /** Every message was a request of this handle, and so a finished call of the shared machine. */
    ghost predicate Ready()
      reads this`sent, smu, smu.client
    {
      smu.Valid() && family == smu.family && forall i | 0 <= i < |sent| :: sent[i].call in smu.requests
    }

    /** True of every handle, also in the middle of a re-initialisation. */
    ghost predicate Sane()
      reads this, pmFile, smu, smu.client
    {
      && Ready()
      && pageBits <= 62
      && pmFile.Valid()
      && tableAddr < LIMIT64
      && (mapped ==> mapOffset <= mapLen && PageAligned(mapBase, pageBits))
    }

    /** The buffer is absent, or its capacity is the table size and covers what is read from it. */
    ghost predicate Fits()
      reads this
    {
      values != null ==>
        && values.Length == tableSize
        && 4 <= tableSize <= MAX_TABLE_SIZE && tableSize % 4 == 0
        && (!isSmu ==> 24 <= tableSize)
    }

    ghost predicate Valid()
      reads this, pmFile, smu, smu.client
    {
      Sane() && Fits()
    }

    constructor (smu: Handle, isSmu: bool, kmodSize: nat, pmFile: Attribute, supply: Supply, pageBits: nat)
      requires smu.Valid() && pmFile.Valid() && pageBits <= 62
      ensures Valid() && values == null && !busy && sent == []
      ensures this.smu == smu && this.family == smu.family && this.pmFile == pmFile && this.isSmu == isSmu
      ensures this.supply == supply && this.kmodSize == kmodSize
    {
      this.supply := supply;
      this.smu, this.family, this.isSmu, this.kmodSize, this.pmFile, this.pageBits := smu, smu.family, isSmu, kmodSize, pmFile, pageBits;
      tableAddr, tableVer, tableSize, values, busy := 0, 0, 0, null, false;
      mapped, mapLen, mapOffset, mapBase := false, 0, 0, 0;
      sent, seen := [], [];
    }

    /** smu_service_req on the PSMU mailbox. */
    method Send(purpose: Purpose, id: Word, arg0: Word) returns (resp: Word, res0: Word, res1: Word, ghost m: Message)
      requires Ready() && MessageId(family, purpose) == Some(id) && arg0 == MessageArg(family, purpose)
      modifies this`sent, smu`requests, smu.client
      ensures Ready()
      ensures sent == old(sent) + [m] && Logged(family, old(sent), old(smu.requests), sent, smu.requests)
      ensures m.purpose == purpose && m.call.req == RequestFor(PSMU, id, arg0)
      ensures m.Resp() == resp && m.Res0() == res0 && m.Res1() == res1
      ensures resp == REP_TIMEOUT ==> res0 == arg0 && res1 == 0
    {
      ghost var call;
      resp, res0, res1, call := smu.Ask(PSMU, id, arg0);
      m := Message(purpose, call);
      assert call.rets[..2][0] == call.rets[0] && call.rets[..2][1] == call.rets[1];
      sent := sent + [m];
      assert sent[|old(sent)|..] == [m] && Calls([m]) == [call];
    }

    /** One message with the family's id and argument has been sent, or none if the family has no such message. */
    ghost predicate Asked(purpose: Purpose, before: seq<Message>)
      reads this
    {
      match MessageId(family, purpose)
      case None => sent == before
      case Some(id) =>
        && |sent| == |before| + 1 && before <= sent
        && var m := sent[|before|];
           m.purpose == purpose && m.call.req == RequestFor(PSMU, id, MessageArg(family, purpose))
    }

    /** The first message since then got no answer in time. */
    ghost predicate TimedOut(before: seq<Message>)
      reads this`sent
    {
      |sent| > |before| && sent[|before|].Resp() == REP_TIMEOUT
    }

    method RequestTableVerAndSize() returns (err: int)
      requires Ready()
      modifies this`sent, this`tableVer, this`tableSize, smu`requests, smu.client
      ensures Logged(family, old(sent), old(smu.requests), sent, smu.requests)
      ensures Ready()
      ensures Transfers(sent) == Transfers(old(sent)) && old(sent) <= sent
      ensures tableSize == SizeOf(tableVer) || (tableSize == old(tableSize) && tableVer == old(tableVer))
      ensures err == 0 ==> tableSize == SizeOf(tableVer) && tableVer != 0
      ensures Asked(Version, old(sent)) && (sent != old(sent) ==> tableVer == sent[|sent| - 1].Res0())
      ensures err == 0 <==> sent != old(sent) && sent[|sent| - 1].Resp() == REP_OK && sent[|sent| - 1].Res0() != 0
      // a query that times out is answered with its own argument, 0
      ensures TimedOut(old(sent)) ==> err == ERR_SMU_TIMEOUT && tableVer == 0 && tableSize == 0x1000
    {
      hide Ready;
      hide Logged;
      LoggedRefl(family, sent, smu.requests);
      var id := MessageId(family, Version);
      if id == None {
        return ERR_FAM_UNSUPPORTED;
      }
      var resp, res0, res1;
      ghost var m;
      resp, res0, res1, m := Send(Version, id.value, MessageArg(family, Version));
      TransfersSnoc(old(sent), m);
      tableVer := res0;
      tableSize := SizeOf(tableVer);
      if resp != REP_OK {
        return Translate(resp);
      }
      err := if tableVer == 0 then ERR_SMU_UNSUPPORTED else 0;
    }

    method RequestTableAddr() returns (err: int)
      requires Ready() && tableAddr < LIMIT64
      modifies this`sent, this`tableAddr, smu`requests, smu.client
      ensures Logged(family, old(sent), old(smu.requests), sent, smu.requests)
      ensures Ready()
      ensures tableAddr < LIMIT64
      ensures Transfers(sent) == Transfers(old(sent)) && old(sent) <= sent
      ensures Asked(Address, old(sent))
      ensures sent != old(sent) ==> tableAddr == AddressIn(family, sent[|sent| - 1])
      ensures err == 0 ==> tableAddr != 0
      ensures err == 0 <==> sent != old(sent) && sent[|sent| - 1].Resp() == REP_OK && AddressIn(family, sent[|sent| - 1]) != 0
    {
      hide Ready;
      hide Logged;
      LoggedRefl(family, sent, smu.requests);
      var id := MessageId(family, Address);
      if id == None {
        return ERR_FAM_UNSUPPORTED;
      }
      var resp, res0, res1;
      ghost var m;
      resp, res0, res1, m := Send(Address, id.value, MessageArg(family, Address));
      TransfersSnoc(old(sent), m);
      tableAddr := if WideAddress(family) then res1 * WORD_LIMIT + res0 else res0;
      if resp != REP_OK {
        return Translate(resp);
      }
      err := if tableAddr == 0 then ERR_SMU_UNSUPPORTED else 0;
    }

    /** One transfer message. */
    method AskTransfer(id: Word) returns (resp: Word, ghost m: Message)
      requires Ready() && MessageId(family, Transfer) == Some(id)
      modifies this`sent, smu`requests, smu.client
      ensures Ready() && Logged(family, old(sent), old(smu.requests), sent, smu.requests)
      ensures sent == old(sent) + [m] && m.purpose == Transfer && m.Resp() == resp
      ensures Transfers(sent) == Transfers(old(sent)) + 1
    {
      hide Ready;
      hide Logged;
      var res0, res1;
      resp, res0, res1, m := Send(Transfer, id, MessageArg(family, Transfer));
      TransfersSnoc(old(sent), m);
    }

    /** Ask the SMU to transfer the table, retrying after up to two prerequisite rejections. */
    method RequestTransferTable() returns (err: int, ghost msgs: seq<Message>)
      requires Ready()
      modifies this`sent, smu`requests, smu.client
      ensures Ready() && Logged(family, old(sent), old(smu.requests), sent, smu.requests)
      ensures sent == old(sent) + msgs && OnlyTransfers(sent, |old(sent)|)
      ensures if MessageId(family, Transfer) == None then msgs == [] else TransferRetries(msgs)
      ensures err == if msgs == [] then ERR_FAM_UNSUPPORTED
                     else if msgs[|msgs| - 1].Resp() == REP_OK then 0 else Translate(msgs[|msgs| - 1].Resp())
      ensures Transfers(sent) == Transfers(old(sent)) + |msgs|
    {
      hide Ready;
      hide Logged;
      LoggedRefl(family, sent, smu.requests);
      msgs := [];
      var id := MessageId(family, Transfer);
      if id == None {
        return ERR_FAM_UNSUPPORTED, msgs;
      }
      ghost var s0, r0 := sent, smu.requests;
      var resp;
      ghost var m;
      resp, m := AskTransfer(id.value);
      msgs := [m];
      if resp == REP_REJECTED_PREREQ {
        ghost var s1, r1 := sent, smu.requests;
        resp, m := AskTransfer(id.value);
        msgs := msgs + [m];
        LoggedTrans(family, s0, r0, s1, r1, sent, smu.requests);
        if resp == REP_REJECTED_PREREQ {
          ghost var s2, r2 := sent, smu.requests;
          resp, m := AskTransfer(id.value);
          msgs := msgs + [m];
          LoggedTrans(family, s0, r0, s2, r2, sent, smu.requests);
        }
      }
      err := if resp != REP_OK then Translate(resp) else 0;
    }

    /** init_mem_obj: with the driver nothing to do; else map the window, replacing the old one. */
    method InitMemObj(size: nat) returns (r: int)
      requires Sane() && 1 <= size <= MAX_TABLE_SIZE
      modifies this`mapped, this`mapLen, this`mapOffset, this`mapBase, supply
      ensures Sane() && (r == 0 || r == -1)
      ensures r == 0 && !isSmu ==> mapped && size <= mapLen - mapOffset && mapBase + mapOffset == tableAddr
      ensures r != 0 ==> !mapped
      // it fails exactly if the operating system refuses
      ensures r == 0 <==> supply.denied == old(supply.denied)
      ensures supply.denied >= old(supply.denied)
    {
      hide Ready;
      if isSmu {
        return 0;
      }
      WindowCoversTable(tableAddr, pageBits, size);
      var w := MapWindow(tableAddr, Pow2(pageBits), size);
      mapped, mapLen, mapOffset := false, 0, 0;
      var fd := supply.Grant();
      if !fd {
        return -1;
      }
      var mapping := supply.Grant();
      if !mapping {
        return -1;
      }
      mapped, mapLen, mapOffset, mapBase := true, w.len, w.offset, w.aligned;
      r := 0;
    }

    /** phy_table_avail. */
    function Available(): nat
      requires mapped ==> mapOffset <= mapLen
      reads this
    {
      if mapped then mapLen - mapOffset else 0
    }

    /** The physical memory behind the mapping right now; the SMU and other tools may change it any time. */
    method Snapshot() returns (src: seq<Byte>)
      requires Sane()
      modifies this`seen
      ensures Sane() && seen == old(seen) + [src]
      ensures |src| == Available()
    {
      hide Ready;
      var blank: seq<Byte> := seq(Available(), _ => 0);
      assert |blank| == Available();
      src :| |src| == Available();
      seen := seen + [src];
    }

    /** copy_pm_table: `source` is what was in the table when it was copied. */
    method CopyPmTable(buf: array<Byte>, size: nat) returns (r: int, ghost source: seq<Byte>)
      requires Sane() && size <= buf.Length
      modifies buf, pmFile`pos, pmFile`interrupts, pmFile`failures, this`seen
      ensures Sane()
      ensures r == 0 ==> size <= |source| && buf[..size] == source[..size] && buf[size..] == old(buf[size..])
      ensures r == 0 && isSmu ==> source == pmFile.content
      ensures seen == old(seen) + if r == 0 && !isSmu then [source] else []
      ensures r != 0 && !isSmu ==> buf[..] == old(buf[..])
      // it fails exactly if the mapping is too small, or the driver's table is or cannot be read
      ensures !isSmu ==> (r == 0 <==> mapped && size <= mapLen - mapOffset)
      ensures isSmu ==> (r == 0 <==> kmodSize != 0 && size <= kmodSize && pmFile.failures == old(pmFile.failures))
      ensures pmFile.failures >= old(pmFile.failures)
    {
      hide Ready;
      source := [];
      if isSmu {
        if kmodSize == 0 || kmodSize < size {
          return -1, source;
        }
        var ok := pmFile.Rewind();
        if !ok {
          return -1, source;
        }
        ghost var done;
        source := pmFile.content;
        r, done := ReadFull.ReadFull(pmFile, buf, size);
      } else {
        if !mapped || size > Available() {
          return -1, source;
        }
        var src := Snapshot();
        forall k | 0 <= k < size {
          buf[k] := src[k];
        }
        source := src;
        r := 0;
      }
    }

    /** compare_pm_table on the mapped backend: are the first `size` bytes unchanged? */
    method ComparePmTable(buf: array<Byte>, size: nat) returns (same: bool, ghost source: seq<Byte>)
      modifies this`seen
      requires Sane() && 0 < size <= buf.Length && !isSmu
      ensures Sane() && seen == old(seen) + [source]
      ensures same ==> size <= |source| && buf[..size] == source[..size]
      ensures !same ==> |source| < size || buf[..size] != source[..size]
    {
      hide Ready;
      var src := Snapshot();
      source := src;
      same := mapped && size <= Available() && buf[..size] == src[..size];
    }

    /** The buffer of a finished initialisation is a new one. */
    twostate predicate NewBuffer()
      reads this
    {
      values != null && fresh(values)
    }

    /**
     What a successful initialisation has done: the size is the chosen one; on the mapped backend
     there was a transfer, and a table that still starts with zero was transferred twice; with
     the driver nothing is transferred.
     */
    ghost predicate Initialised(before: seq<Message>)
      requires values != null && values.Length >= 4
      reads this, values
    {
      && ChosenSize()
      && (!isSmu ==> WindowOpen() && Transfers(sent) >= Transfers(before) + 1)
      && (!isSmu && FirstIsZero(values[..]) ==> Transfers(sent) >= Transfers(before) + 2)
      && (isSmu ==> Transfers(sent) == Transfers(before))
    }

    /** The middle of init_table_locked: check the size, map the window, choose the size, replace the buffer. */
    method MapAndAllocate() returns (err: int)
      requires Sane() && tableSize == SizeOf(tableVer)
      modifies this`tableSize, this`values, this`mapped, this`mapLen, this`mapOffset, this`mapBase, supply
      ensures Sane()
      ensures values == old(values) || values == null || NewBuffer()
      ensures values != old(values) ==> Fits()
      ensures values == old(values) != null ==> tableSize == SizeOf(tableVer)
      ensures err == 0 ==> NewBuffer() && Fits() && FirstIsZero(values[..]) && ChosenSize()
      ensures err == 0 && !isSmu ==> WindowOpen()
      ensures err == 0 <==> supply.denied == old(supply.denied)
      ensures supply.denied >= old(supply.denied)
    {
      hide Ready;
      assert 24 <= tableSize <= MAX_TABLE_SIZE && tableSize % 4 == 0;
      hide SizeOf;
      if tableSize == 0 || tableSize % 4 != 0 || tableSize > MAX_TABLE_SIZE {
        return ERR_MEMORY_ACCESS;
      }
      var r := InitMemObj(tableSize);
      if r < 0 {
        return ERR_MEMORY_ACCESS;
      }
      if isSmu && kmodSize != tableSize && kmodSize != 0 && kmodSize % 4 == 0 && kmodSize <= MAX_TABLE_SIZE {
        tableSize := kmodSize;
      }
      values := null;
      var enough := supply.Grant();
      if !enough {
        return ERR_MEMORY_ACCESS;
      }
      values := new Byte[tableSize](_ => 0);
      err := 0;
    }

    /** What a version query without an answer leaves: version 0, its probe size, and nothing else asked. */
    ghost predicate Misfit(err: int, n: nat)
      reads this`sent, this`tableVer, this`tableSize
    {
      err == ERR_SMU_TIMEOUT && tableVer == 0 && tableSize == 0x1000 && |sent| == n + 1
    }

    /**
     init_table_locked up to the allocation. Whatever happens, a buffer that is replaced has the
     capacity the table size says; a buffer that is not replaced is the old one.
     */
    method PrepareTable() returns (err: int)
      requires Sane()
      modifies this`sent, this`tableVer, this`tableSize, this`tableAddr, this`values,
        this`mapped, this`mapLen, this`mapOffset, this`mapBase, smu`requests, smu.client, supply
      ensures Logged(family, old(sent), old(smu.requests), sent, smu.requests)
      ensures Sane()
      ensures values == old(values) || values == null || NewBuffer()
      ensures values != old(values) ==> Fits()
      ensures values == old(values) != null ==> tableSize == old(tableSize) || tableSize == SizeOf(tableVer)
      ensures old(sent) <= sent && Transfers(sent) == Transfers(old(sent))
      ensures InitMessages(sent, |old(sent)|) && |sent| <= |old(sent)| + 2
      ensures err == 0 ==> Introduced(sent, |old(sent)|)
      ensures GoesAsFar(family, sent, |old(sent)|, false, false)
      ensures err == 0 <==> Addressed(family, sent, |old(sent)|) && supply.denied == old(supply.denied)
      ensures supply.denied >= old(supply.denied)
      ensures err == 0 ==> NewBuffer() && Fits() && FirstIsZero(values[..]) && ChosenSize()
      ensures err == 0 && !isSmu ==> WindowOpen()
      ensures TimedOut(old(sent)) ==> Misfit(err, |old(sent)|) && values == old(values)
    {
      hide Ready;
      hide SizeOf;
      hide Logged;
      ghost var s0, r0 := sent, smu.requests;
      err := RequestTableVerAndSize();
      if err != 0 {
        return;
      }
      ghost var s1, r1 := sent, smu.requests;
      err := RequestTableAddr();
      LoggedTrans(family, s0, r0, s1, r1, sent, smu.requests);
      if err != 0 {
        return;
      }
      err := MapAndAllocate();
    }

    /** The mapping begins at a page and shows the whole table at the address the SMU reported. */
    ghost predicate WindowOpen()
      reads this
    {
      && mapped && mapBase + mapOffset == tableAddr && PageAligned(mapBase, pageBits)
      && mapOffset <= mapLen && tableSize <= mapLen - mapOffset
    }

    /** The table size of a finished initialisation: the version's, unless the driver reports a plausible one. */
    ghost predicate ChosenSize()
      reads this
    {
      tableSize == if isSmu && PlausibleSize(kmodSize) then kmodSize else SizeOf(tableVer)
    }

    /** init_table_locked: a fresh table of zeros, one refresh, and a second one if it still starts with zero. */
    method InitTableLocked() returns (err: int, ghost copied: seq<Byte>)
      requires Sane() && busy
      modifies this, pmFile, smu`requests, smu.client, supply
      ensures Logged(family, old(sent), old(smu.requests), sent, smu.requests)
      ensures Sane() && busy
      ensures values == old(values) || values == null || NewBuffer()
      ensures values != old(values) ==> Fits()
      ensures values == old(values) != null ==> tableSize == old(tableSize) || tableSize == SizeOf(tableVer)
      ensures err == 0 ==> NewBuffer() && Fits() && tableSize <= |copied| && values[..] == copied[..tableSize]
      ensures err == 0 ==> if isSmu then copied == pmFile.content else seen != [] && |seen| > |old(seen)| && copied == seen[|seen| - 1]
      ensures old(sent) <= sent && Transfers(sent) <= Transfers(old(sent)) + 6
      ensures err == 0 ==> Initialised(old(sent))
      ensures InitMessages(sent, |old(sent)|)
      ensures supply.denied >= old(supply.denied) && pmFile.failures >= old(pmFile.failures)
      ensures err == 0 ==> Introduced(sent, |old(sent)|)
      ensures TimedOut(old(sent)) ==> Misfit(err, |old(sent)|) && values == old(values)
      ensures GoesAsFar(family, sent, |old(sent)|, !isSmu, supply.denied == old(supply.denied))
      // success, exactly: everything asked for was answered, granted and read
      ensures !isSmu ==>
                (err == 0 <==> |sent| >= |old(sent)| + 3 && sent[|sent| - 1].Resp() == REP_OK)
      ensures isSmu ==>
                (err == 0 <==>
                 && Addressed(family, sent, |old(sent)|) && supply.denied == old(supply.denied)
                 && kmodSize != 0 && tableSize <= kmodSize && pmFile.failures == old(pmFile.failures))
      ensures Addressed(family, sent, |old(sent)|) && supply.denied == old(supply.denied) ==> ChosenSize()
      decreases 2
    {
      hide Ready;
      hide InitMessages;
      hide OnlyTransfers;
      hide PageAligned;
      hide Logged;
      ghost var s0, r0 := sent, smu.requests;
      copied := [];
      err := PrepareTable();
      if err != 0 {
        return;
      }
      ghost var n, intro, compared, r1 := |old(sent)|, sent, [], smu.requests;
      err, compared, copied := RefreshTable();
      MoreTransfers(intro, sent, n);
      LoggedTrans(family, s0, r0, intro, r1, sent, smu.requests);
      if err != 0 {
        return;
      }
      if FirstIsZero(values[..]) {
        ghost var first, r2 := sent, smu.requests;
        err, compared, copied := RefreshTable();
        MoreTransfers(first, sent, n);
        LoggedTrans(family, s0, r0, first, r2, sent, smu.requests);
      }
    }

    /** init_table: refuses to run inside itself. */
    method InitTable() returns (err: int, ghost copied: seq<Byte>)
      requires Sane()
      modifies this, pmFile, smu`requests, smu.client, supply
      ensures Logged(family, old(sent), old(smu.requests), sent, smu.requests)
      ensures Sane() && busy == old(busy)
      ensures values == old(values) || values == null || NewBuffer()
      ensures values != old(values) ==> Fits()
      ensures values == old(values) != null ==> tableSize == old(tableSize) || tableSize == SizeOf(tableVer)
      ensures err == 0 ==> NewBuffer() && Fits() && tableSize <= |copied| && values[..] == copied[..tableSize]
      ensures err == 0 ==> if isSmu then copied == pmFile.content else seen != [] && |seen| > |old(seen)| && copied == seen[|seen| - 1]
      ensures old(sent) <= sent && Transfers(sent) <= Transfers(old(sent)) + 6
      ensures err == 0 ==> Initialised(old(sent))
      ensures InitMessages(sent, |old(sent)|)
      ensures supply.denied >= old(supply.denied) && pmFile.failures >= old(pmFile.failures)
      ensures err == 0 ==> Introduced(sent, |old(sent)|)
      ensures !old(busy) ==> GoesAsFar(family, sent, |old(sent)|, !isSmu, supply.denied == old(supply.denied))
      // success, exactly: everything asked for was answered, granted and read
      ensures !old(busy) && !isSmu ==>
                (err == 0 <==> |sent| >= |old(sent)| + 3 && sent[|sent| - 1].Resp() == REP_OK)
      ensures !old(busy) && isSmu ==>
                (err == 0 <==>
                 && Addressed(family, sent, |old(sent)|) && supply.denied == old(supply.denied)
                 && kmodSize != 0 && tableSize <= kmodSize && pmFile.failures == old(pmFile.failures))
      ensures !old(busy) && Addressed(family, sent, |old(sent)|) && supply.denied == old(supply.denied) ==> ChosenSize()
      ensures old(busy) ==> err == ERR_MEMORY_ACCESS && unchanged(this)
      // entered without a buffer, or successful: the handle is sound again,
      ensures old(values) == null || err == 0 ==> Valid()
      // and a failure over an existing buffer keeps it sound exactly when the size is the one it had
      ensures old(Valid()) && values == old(values) != null ==> (Valid() <==> tableSize == old(tableSize))
      // so after a version query that timed out over an existing buffer the getters stay inside it
      // exactly when the buffer has at least the probe size
      ensures TimedOut(old(sent)) ==>
                && Misfit(err, |old(sent)|) && values == old(values)
                && (GettersInBounds() <==> values == null || values.Length >= 0x1000)
      decreases if busy then 0 else 3
    {
      hide Ready;
      LoggedRefl(family, sent, smu.requests);
      if busy {
        return ERR_MEMORY_ACCESS, [];
      }
      busy := true;
      err, copied := InitTableLocked();
      busy := false;
      if values != null && TimedOut(old(sent)) {
        ReadsInBoundsIff(tableSize, values.Length);
      }
    }

    /** The part of refresh_table that decides whether the SMU has to transfer the table first. */
    method TransferIfStale() returns (err: int, ghost compared: seq<Byte>)
      requires Valid() && values != null
      modifies this`sent, this`seen, smu`requests, smu.client
      ensures Logged(family, old(sent), old(smu.requests), sent, smu.requests)
      ensures Valid()
      ensures seen == old(seen) + if !isSmu && !FirstIsZero(values[..]) then [compared] else []
      ensures old(sent) <= sent && Transfers(sent) <= Transfers(old(sent)) + 3
      ensures sent != old(sent) ==> Transfers(sent) >= Transfers(old(sent)) + 1
      ensures OnlyTransfers(sent, |old(sent)|)
      ensures sent != old(sent) ==> TransferRetries(sent[|old(sent)|..])
      ensures MessageId(family, Transfer).Some? ==> (err == 0 <==> sent == old(sent) || sent[|sent| - 1].Resp() == REP_OK)
      ensures isSmu ==> sent == old(sent) && err == 0
      ensures !isSmu ==>
                (sent != old(sent) <==>
                 MessageId(family, Transfer).Some? && (FirstIsZero(values[..]) || SamePrefix(values[..], compared)))
      ensures !isSmu && err == 0 && sent == old(sent) ==> !FirstIsZero(values[..]) && !SamePrefix(values[..], compared)
    {
      hide Ready;
      hide Transfers;
      hide Logged;
      hide MessageId;
      hide PageAligned;
      hide FirstIsZero;
      LoggedRefl(family, sent, smu.requests);
      err, compared := 0, [];
      if !isSmu {
        var zero := FirstIsZero(values[..]);
        var same := false;
        if !zero {
          same, compared := ComparePmTable(values, 24);
          assert same <==> SamePrefix(values[..], compared) by {
            assert values[..24] == values[..][..24];
          }
        }
        hide SamePrefix;
        if zero || same {
          ghost var msgs;
          err, msgs := RequestTransferTable();
          assert sent[|old(sent)|..] == msgs;
        }
      }
    }

    /**
     refresh_table, initialising first if there is no buffer. `compared` and `copied` are the
     table contents seen by the comparison and by the copy.
     */
    method RefreshTable() returns (err: int, ghost compared: seq<Byte>, ghost copied: seq<Byte>)
      requires Valid()
      modifies this, pmFile, values, smu`requests, smu.client, supply
      ensures Logged(family, old(sent), old(smu.requests), sent, smu.requests)
      ensures Valid() && busy == old(busy)
      ensures old(values) != null ==> values == old(values) && tableSize == old(tableSize)
      ensures old(values) == null ==> values == null || NewBuffer()
      ensures old(sent) <= sent
      ensures Transfers(sent) <= Transfers(old(sent)) + if old(values) == null then 9 else 3
      // success: the cache is what was copied
      ensures err == 0 ==> values != null && tableSize <= |copied| && values[..] == copied[..tableSize]
      // an existing cache on the mapped backend: when a transfer is requested,
      ensures old(values) != null && !isSmu ==>
                (sent != old(sent) <==>
                 MessageId(family, Transfer).Some? && (FirstIsZero(old(values[..])) || SamePrefix(old(values[..]), compared)))
      // what a failure leaves,
      ensures old(values) != null && !isSmu && err != 0 ==> values[..] == old(values[..])
      // and that a success without a transfer shows new data, if the table did not change meanwhile
      ensures old(values) != null && !isSmu && err == 0 && sent == old(sent) && compared == copied ==>
                values[..24] != old(values[..24])
      ensures old(values) != null && !isSmu && err == 0 && sent == old(sent) ==>
                !FirstIsZero(old(values[..])) && !SamePrefix(old(values[..]), compared)
      ensures isSmu && old(values) != null ==> sent == old(sent)
      ensures old(values) != null ==> tableVer == old(tableVer) && OnlyTransfers(sent, |old(sent)|)
      ensures old(values) == null ==> InitMessages(sent, |old(sent)|)
      ensures supply.denied >= old(supply.denied) && pmFile.failures >= old(pmFile.failures)
      ensures old(values) != null && sent != old(sent) ==> TransferRetries(sent[|old(sent)|..])
      // success, exactly: an existing table is transferred if stale, and can be read
      ensures old(values) != null ==> supply.denied == old(supply.denied)
      ensures old(values) != null && !isSmu && MessageId(family, Transfer).Some? ==>
                (err == 0 <==>
                 && (sent == old(sent) || sent[|sent| - 1].Resp() == REP_OK)
                 && mapped && tableSize <= mapLen - mapOffset)
      ensures old(values) != null ==>
                seen == old(seen) + (if !isSmu && !FirstIsZero(old(values[..])) then [compared] else [])
                                  + (if !isSmu && err == 0 then [copied] else [])
      ensures isSmu && err == 0 ==> copied == pmFile.content
      ensures old(values) != null && isSmu ==>
                (err == 0 <==> kmodSize != 0 && tableSize <= kmodSize && pmFile.failures == old(pmFile.failures))
      ensures old(values) != null ==>
                tableAddr == old(tableAddr) && mapped == old(mapped) && mapBase == old(mapBase)
                && mapOffset == old(mapOffset) && mapLen == old(mapLen)
      ensures old(values) != null && sent != old(sent) ==> Transfers(sent) >= Transfers(old(sent)) + 1
      decreases if values == null then (if busy then 1 else 4) else 0
    {
      hide Ready;
      hide InitMessages;
      hide OnlyTransfers;
      hide PageAligned;
      hide Logged;
      LoggedRefl(family, sent, smu.requests);
      compared, copied := [], [];
      if values == null {
        ghost var first;
        err, first := InitTable();
        if err != 0 {
          return;
        }
      }
      ghost var before, r1 := sent, smu.requests;
      err, compared := TransferIfStale();
      LoggedTrans(family, old(sent), old(smu.requests), before, r1, sent, smu.requests);
      if Introduced(before, |old(sent)|) {
        MoreTransfers(before, sent, |old(sent)|);
      }
      if err != 0 {
        return;
      }
      var r;
      r, copied := CopyPmTable(values, tableSize);
      if r != 0 {
        return ERR_MEMORY_ACCESS, compared, copied;
      }
    }

    /** Every read the check of the getters admits is inside the buffer. */
    ghost predicate GettersInBounds()
      reads this
    {
      values != null ==>
        forall offset: nat | ReadIndex(tableSize, offset).Some? :: 4 * ReadIndex(tableSize, offset).value + 4 <= values.Length
    }

    /** _read_float_value: the word index read for a byte offset, or None for NAN. */
    function FloatIndex(offset: nat): (index: Option<nat>)
      requires Valid()
      reads this, pmFile, smu, smu.client
      ensures index.Some? ==> values != null && 4 * index.value + 4 <= values.Length
      ensures index.Some? <==> values != null && offset + 4 <= tableSize
    {
      if values == null then None else ReadIndex(tableSize, offset)
    }

    /** get_core_power for any core index: NAN, or four bytes of the cache. */
    method GetCorePower(core: Word) returns (value: Option<seq<Byte>>)
      requires Valid()
      ensures value.Some? ==>
                && values != null && CorePowerOffset(tableVer, core).Some?
                && var k := CorePowerOffset(tableVer, core).value / 4 * 4;
                   k + 4 <= values.Length && value.value == values[k..k + 4]
      ensures value == None <==>
              values == null || CorePowerOffset(tableVer, core) == None || CorePowerOffset(tableVer, core).value + 4 > tableSize
    {
      hide Ready;
      var offset := CorePowerOffset(tableVer, core);
      if offset == None {
        return None;
      }
      var index := FloatIndex(offset.value);
      value := if index == None then None else Some(values[4 * index.value..4 * index.value + 4]);
    }
  }

  /** The bounds check every getter goes through. */
  function ReadIndex(size: nat, offset: nat): Option<nat> {
    if offset + 4 > size then None else Some(offset / 4)
  }

  /**
   The check against the table size keeps every read inside the buffer exactly when the table
   size does not exceed the capacity; after a failed re-initialisation over an old buffer that
   is the whole condition.
   */
  lemma ReadsInBoundsIff(size: nat, capacity: nat)
    requires size >= 4 && size % 4 == 0
    ensures (forall offset: nat | ReadIndex(size, offset).Some? :: 4 * ReadIndex(size, offset).value + 4 <= capacity) <==>
            size <= capacity
  {
    var last: nat := size - 4;
    assert ReadIndex(size, last) == Some(last / 4) && 4 * (last / 4) + 4 == size;
  }

  /** The per-core power array, where the version has one; other versions and cores give NAN. */
  function CorePowerOffset(ver: Word, core: Word): Option<nat> {
    if core > 15 then None
    else
      match ver
      case 0x370000 | 0x370001 | 0x370002 | 0x370003 | 0x370004 => Some(0x300 + core * 4)
      case 0x370005 => Some(0x31C + core * 4)
      case 0x3F0000 => if core >= 4 then None else Some(0x238 + core * 4)
      case 0x400001 => Some(0x304 + core * 4)
      case 0x400004 | 0x400005 => Some(0x320 + core * 4)
      case 0x5D0008 | 0x5D0009 | 0x5D000B => Some(0x9D8 + core * 4)
      case 0x64020C => Some(0xB90 + core * 4)
      case _ => None
  }

  /** The first 24 bytes in memory are the cached ones. */
  predicate SamePrefix(cache: seq<Byte>, source: seq<Byte>) {
    24 <= |cache| && 24 <= |source| && cache[..24] == source[..24]
  }
}
