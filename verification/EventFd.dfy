/** The 64-bit eventfd word: a task field (bits 44-63), an io field (24-43) and a completion field (0-23). */
module EventFd {
  const TASK_FLAG: nat := 0x1000_0000_0000
  const IO_FLAG: nat := 0x100_0000
  const TASK_LIMIT: nat := 0x10_0000
  const CQE_LIMIT: nat := 0x100_0000
  const WORD: nat := 0x1_0000_0000_0000_0000

  /** What a read returns after `task` writes of task_flag and writes of 1 that sum up to `low`. */
  function Value(task: nat, low: nat): nat {
    task * TASK_FLAG + low
  }

  /** The wake_by_ tests: is any bit of the field set? */
  predicate WakeByTask(value: nat) {
    value / TASK_FLAG % TASK_LIMIT > 0
  }

  predicate WakeByIo(value: nat) {
    value / IO_FLAG % TASK_LIMIT > 0
  }

  predicate WakeByCqe(value: nat) {
    value % CQE_LIMIT > 0
  }

  /** Task writes never reach the completion field. */
  lemma CqeField(task: nat, low: nat)
    ensures WakeByCqe(Value(task, low)) <==> low % CQE_LIMIT != 0
  {
    assert Value(task, low) == low + CQE_LIMIT * (task * 0x10_0000);
  }

  /**
   The layout in numbers: 20 bits of task writes from bit 44, 20 bits of io writes from bit 24, 24 bits below. While the
   writes between two reads stay within their fields, every test reports exactly its own writes.
   */
  lemma WritesAreSeen(task: nat, io: nat, low: nat)
    requires task < 0x10_0000 && io < 0x10_0000 && low < 0x100_0000
    ensures var v := task * TASK_FLAG + io * IO_FLAG + low;
      && v < 0x1_0000_0000_0000_0000
      && (WakeByTask(v) <==> task > 0) && (WakeByIo(v) <==> io > 0) && (WakeByCqe(v) <==> low > 0)
  {
    var v := task * TASK_FLAG + io * IO_FLAG + low;
    assert v / TASK_FLAG == task;
    assert v / IO_FLAG == task * 0x10_0000 + io;
    assert v % CQE_LIMIT == low;
  }

  /** The value of a read after task and low writes only. */
  lemma FieldsAreExact(task: nat, low: nat)
    requires task < 0x10_0000 && low < 0x100_0000
    ensures Value(task, low) < 0x1_0000_0000_0000_0000
    ensures WakeByTask(Value(task, low)) <==> task > 0
    ensures WakeByCqe(Value(task, low)) <==> low > 0
    ensures !WakeByIo(Value(task, low))
  {
    WritesAreSeen(task, 0, low);
  }

  /** The bounds are needed: one write more in a field is invisible to its test and looks like the next field's. */
  lemma FieldsCarry()
    ensures !WakeByCqe(Value(0, 0x100_0000)) && WakeByIo(Value(0, 0x100_0000))
    ensures Value(0x10_0000, 0) == 0x1_0000_0000_0000_0000 && !WakeByTask(Value(0x10_0000, 0))
  {
  }
}
