/**
 Machine words and the small value types shared by the whole model.
 Registers, message ids and arguments are 32-bit words; they are kept as bounded
 naturals, and every place where the C code wraps writes the wrap-around out.
 */
module Words {

  const WORD_LIMIT: nat := 0x1_0000_0000

  type Word = x: nat | x < WORD_LIMIT

  type Byte = x: nat | x < 256

  /** The six mailbox arguments arg0..arg5. */
  type Args = s: seq<Word> | |s| == 6 witness [0, 0, 0, 0, 0, 0]

  datatype Option<+T> = None | Some(value: T)

  // Response register values (lib/nb_smu_ops.h).
  const REP_TIMEOUT: Word := 0x0
  const REP_OK: Word := 0x1
  const REP_FAILED: Word := 0xFF
  const REP_UNKNOWN_CMD: Word := 0xFE
  const REP_REJECTED_PREREQ: Word := 0xFD
  const REP_REJECTED_BUSY: Word := 0xFC

  // Error codes of the library (lib/ryzenadj.h).
  const ERR_FAM_UNSUPPORTED: int := -1
  const ERR_SMU_TIMEOUT: int := -2
  const ERR_SMU_UNSUPPORTED: int := -3
  const ERR_SMU_REJECTED: int := -4
  const ERR_MEMORY_ACCESS: int := -5

  /** What a response other than success is reported as. */
  function Translate(resp: Word): int {
    if resp == REP_TIMEOUT then ERR_SMU_TIMEOUT
    else if resp == REP_UNKNOWN_CMD then ERR_SMU_UNSUPPORTED
    else ERR_SMU_REJECTED
  }

  /** 32-bit address arithmetic: argument registers are consecutive words. */
  function ArgAddr(base: Word, index: nat): Word {
    (base + 4 * index) % WORD_LIMIT
  }
}
