/**
 The system-call filter of guest/stage1/init.c: a classic BPF program laid out as a table.

 `Exec` is the machine, `Program` the layout for any list of denied calls, and `Policy` what
 the table is for.
 */
module Seccomp {
  type word = bv32

  // ----- The machine

  const LD_W_ABS := 0x20
  const JMP_JEQ_K := 0x15
  const JMP_JSET_K := 0x45
  const ALU_AND_K := 0x54
  const RET_K := 0x06

  datatype Instruction = Instruction(code: nat, jt: nat, jf: nat, k: word)

  /** The parts of the kernel's record that the filter reads; `low` is the low half of the first argument. */
  datatype Call = Call(nr: word, arch: word, low: word)

  datatype Outcome = Halt(action: word) | Fault

  /** Runs to a return.  Jumps only go forward; leaving the table or an unknown instruction is a fault. */
  function Exec(table: seq<Instruction>, acc: word, call: Call): Outcome
    decreases |table|
  {
    if table == [] then Fault
    else
      var i, rest := table[0], table[1..];
      if i.code == RET_K then Halt(i.k)
      else if i.code == LD_W_ABS then
        if i.k == 0 then Exec(rest, call.nr, call)
        else if i.k == 4 then Exec(rest, call.arch, call)
        else if i.k == 16 then Exec(rest, call.low, call)
        else Fault
      else if i.code == ALU_AND_K then Exec(rest, acc & i.k, call)
      else if i.code == JMP_JEQ_K || i.code == JMP_JSET_K then
        var offset := if Taken(i, acc) then i.jt else i.jf;
        if offset <= |rest| then Exec(rest[offset..], acc, call) else Fault
      else Fault
  }

  predicate Taken(i: Instruction, acc: word) {
    if i.code == JMP_JEQ_K then acc == i.k else acc & i.k != 0
  }

  // ----- The table

  function Stmt(code: nat, k: word): Instruction {
    Instruction(code, 0, 0, k)
  }

  function Branch(code: nat, k: word, jt: nat, jf: nat): Instruction {
    Instruction(code, jt, jf, k)
  }

  const AUDIT_ARCH_X86_64: word := 0xc000003e
  const X32_SYSCALL_BIT: word := 0x40000000
  const KILL_PROCESS: word := 0x80000000
  const ERRNO: word := 0x00050000
  const ALLOW: word := 0x7fff0000
  const EPERM: word := 1
  const ENOSYS: word := 38
  const SYS_CLONE: word := 56
  const SYS_CLONE3: word := 435
  const NAMESPACES: word := 0x00020000 | 0x02000000 | 0x04000000 | 0x08000000 | 0x10000000 | 0x20000000 | 0x40000000

  function Prologue(): seq<Instruction> {
    [ Stmt(LD_W_ABS, 4),
      Branch(JMP_JEQ_K, AUDIT_ARCH_X86_64, 1, 0),
      Stmt(RET_K, KILL_PROCESS),
      Stmt(LD_W_ABS, 0),
      Branch(JMP_JSET_K, X32_SYSCALL_BIT, 0, 1),
      Stmt(RET_K, KILL_PROCESS) ]
  }

  function Deny(number: word): seq<Instruction> {
    [Branch(JMP_JEQ_K, number, 0, 1), Stmt(RET_K, ERRNO | EPERM)]
  }

  function Denials(numbers: seq<word>): seq<Instruction> {
    if numbers == [] then [] else Deny(numbers[0]) + Denials(numbers[1..])
  }

  function Epilogue(): seq<Instruction> {
    [ Branch(JMP_JEQ_K, SYS_CLONE3, 0, 1),
      Stmt(RET_K, ERRNO | ENOSYS),
      Branch(JMP_JEQ_K, SYS_CLONE, 0, 4),
      Stmt(LD_W_ABS, 16),
      Stmt(ALU_AND_K, NAMESPACES),
      Branch(JMP_JEQ_K, 0, 1, 0),
      Stmt(RET_K, ERRNO | EPERM),
      Stmt(RET_K, ALLOW) ]
  }

  function Program(numbers: seq<word>): seq<Instruction> {
    Prologue() + (Denials(numbers) + Epilogue())
  }

  /** unshare to mount_setattr, in the order of the table. */
  const DENIED: seq<word> := [
    272, 308, 165, 166, 133, 259, 101, 310, 311, 438, 304, 161, 155, 169, 167, 168, 175, 176,
    313, 246, 321, 298, 248, 249, 250, 323, 425, 426, 427, 428, 429, 430, 431, 432, 433, 442
  ]

  // ----- What it is for

  /** Creating a namespace is one of the flags of clone. */
  predicate CreatesNamespace(flags: word) {
    flags & NAMESPACES != 0
  }

  function Policy(numbers: seq<word>, call: Call): word {
    if call.arch != AUDIT_ARCH_X86_64 || call.nr & X32_SYSCALL_BIT != 0 then KILL_PROCESS
    else if call.nr in numbers then ERRNO | EPERM
    else if call.nr == SYS_CLONE3 then ERRNO | ENOSYS
    else if call.nr == SYS_CLONE && CreatesNamespace(call.low) then ERRNO | EPERM
    else ALLOW
  }

  lemma {:induction false} DenialsDecide(numbers: seq<word>, rest: seq<Instruction>, call: Call)
    ensures Exec(Denials(numbers) + rest, call.nr, call) == if call.nr in numbers then Halt(ERRNO | EPERM)
            else Exec(rest, call.nr, call)
  {
    if numbers == [] {
      assert Denials(numbers) + rest == rest;
    } else {
      var later := Denials(numbers[1..]) + rest;
      DenyDecides(numbers[0], later, call);
      assert Denials(numbers) + rest == Deny(numbers[0]) + later;
      DenialsDecide(numbers[1..], rest, call);
    }
  }

  lemma DenyDecides(number: word, rest: seq<Instruction>, call: Call)
    ensures Exec(Deny(number) + rest, call.nr, call) == if call.nr == number then Halt(ERRNO | EPERM)
            else Exec(rest, call.nr, call)
  {
    var table := Deny(number) + rest;
    var after := table[1..];
    assert after[1..] == rest && after[0..] == after;
    assert Exec(after, call.nr, call) == Halt(ERRNO | EPERM);
  }

  lemma PrologueDecides(rest: seq<Instruction>, acc: word, call: Call)
    ensures Exec(Prologue() + rest, acc, call) ==
            if call.arch != AUDIT_ARCH_X86_64 || call.nr & X32_SYSCALL_BIT != 0 then Halt(KILL_PROCESS)
                else Exec(rest, call.nr, call)
  {
    var t0 := Prologue() + rest;
    var t1, t2, t3 := t0[1..], t0[2..], t0[3..];
    var t4, t5 := t0[4..], t0[5..];
    assert t1 == t0[1..] && t1[1..] == t2 && t2[0..] == t2 && t2[1..] == t3;
    assert t3[1..] == t4 && t4[1..] == t5 && t5[0..] == t5 && t5[1..] == rest;
    assert Exec(t5, call.nr, call) == Halt(KILL_PROCESS) == Exec(t2, call.arch, call);
    assert Exec(t4, call.nr, call) == if call.nr & X32_SYSCALL_BIT != 0 then Halt(KILL_PROCESS)
           else Exec(rest, call.nr, call);
    assert Exec(t1, call.arch, call) == if call.arch == AUDIT_ARCH_X86_64 then Exec(t3, call.arch, call)
           else Halt(KILL_PROCESS);
  }

  // One entry of the table at a time.

  lemma ReturnEntry(table: seq<Instruction>, action: word, acc: word, call: Call)
    requires table != [] && table[0] == Stmt(RET_K, action)
    ensures Exec(table, acc, call) == Halt(action)
  {
  }

  lemma LoadFlagsEntry(table: seq<Instruction>, acc: word, call: Call)
    requires table != [] && table[0] == Stmt(LD_W_ABS, 16)
    ensures Exec(table, acc, call) == Exec(table[1..], call.low, call)
  {
  }

  lemma MaskEntry(table: seq<Instruction>, mask: word, acc: word, call: Call)
    requires table != [] && table[0] == Stmt(ALU_AND_K, mask)
    ensures Exec(table, acc, call) == Exec(table[1..], acc & mask, call)
  {
  }

  lemma CompareEntry(table: seq<Instruction>, k: word, jt: nat, jf: nat, acc: word, call: Call)
    requires table != [] && table[0] == Branch(JMP_JEQ_K, k, jt, jf) && jt < |table| && jf < |table|
    ensures Exec(table, acc, call) == Exec(table[1 + if acc == k then jt else jf..], acc, call)
  {
    var rest := table[1..];
    assert rest[jt..] == table[1 + jt..] && rest[jf..] == table[1 + jf..];
  }

  /** The last three entries: no flag of a namespace may be left. */
  lemma FlagsDecide(table: seq<Instruction>, flags: word, call: Call)
    requires table == Epilogue()[5..]
    ensures Exec(table, flags, call) == if flags == 0 then Halt(ALLOW) else Halt(ERRNO | EPERM)
  {
    CompareEntry(table, 0, 1, 0, flags, call);
    ReturnEntry(table[1..], ERRNO | EPERM, flags, call);
    ReturnEntry(table[2..], ALLOW, flags, call);
  }

  /** The clone entries: the flags are loaded and masked. */
  lemma CloneDecides(table: seq<Instruction>, call: Call)
    requires table == Epilogue()[2..]
    ensures Exec(table, call.nr, call) ==
            Halt(if call.nr == SYS_CLONE && CreatesNamespace(call.low) then ERRNO | EPERM else ALLOW)
  {
    hide Exec;
    CompareEntry(table, SYS_CLONE, 0, 4, call.nr, call);
    var load, mask, flags := table[1..], table[2..], table[3..];
    assert load[1..] == mask && mask[1..] == flags && flags == Epilogue()[5..];
    LoadFlagsEntry(load, call.nr, call);
    MaskEntry(mask, NAMESPACES, call.low, call);
    FlagsDecide(flags, call.low & NAMESPACES, call);
    ReturnEntry(table[5..], ALLOW, call.nr, call);
  }

  lemma EpilogueDecides(call: Call)
    ensures Exec(Epilogue(), call.nr, call) ==
            Halt(if call.nr == SYS_CLONE3 then ERRNO | ENOSYS
                 else if call.nr == SYS_CLONE && CreatesNamespace(call.low) then ERRNO | EPERM
                 else ALLOW)
  {
    CompareEntry(Epilogue(), SYS_CLONE3, 0, 1, call.nr, call);
    ReturnEntry(Epilogue()[1..], ERRNO | ENOSYS, call.nr, call);
    CloneDecides(Epilogue()[2..], call);
  }

  /**
   For every list of denied calls, every architecture, every call and every first argument,
   the table halts in range and returns the policy's verdict, whatever the accumulator held.
   */
  lemma ProgramMeansPolicy(numbers: seq<word>, acc: word, call: Call)
    ensures Exec(Program(numbers), acc, call) == Halt(Policy(numbers, call))
  {
    PrologueDecides(Denials(numbers) + Epilogue(), acc, call);
    DenialsDecide(numbers, Epilogue(), call);
    EpilogueDecides(call);
  }

  /** The calls that the source lists, by their numbers: from unshare and setns to mount_setattr. */
  predicate Listed(nr: word) {
    || nr == 101 || nr == 133 || nr == 155 || nr == 161 // ptrace, mknod, pivot_root, chroot
    || nr == 165 || nr == 166 || nr == 167 || nr == 168 || nr == 169 // mount, umount2, swapon, swapoff, reboot
    || nr == 175 || nr == 176 || nr == 313 // init_module, delete_module, finit_module
    || nr == 246 || nr == 248 || nr == 249 || nr == 250 // kexec_load, add_key, request_key, keyctl
    || nr == 259 || nr == 272 || nr == 298 || nr == 304 // mknodat, unshare, perf_event_open, open_by_handle_at
    || nr == 308 || nr == 310 || nr == 311 // setns, process_vm_readv, process_vm_writev
    || nr == 321 || nr == 323 // bpf, userfaultfd
    || nr == 425 || nr == 426 || nr == 427 // io_uring_setup, io_uring_enter, io_uring_register
    || nr == 428 || nr == 429 || nr == 430 || nr == 431 // open_tree, move_mount, fsopen, fsconfig
    || nr == 432 || nr == 433 || nr == 438 || nr == 442 // fsmount, fspick, pidfd_getfd, mount_setattr
  }

  /** One of CLONE_NEWNS, NEWCGROUP, NEWUTS, NEWIPC, NEWUSER, NEWPID and NEWNET. */
  predicate NewNamespace(flags: word) {
    || flags & 0x00020000 != 0 || flags & 0x02000000 != 0 || flags & 0x04000000 != 0 || flags & 0x08000000 != 0
    || flags & 0x10000000 != 0 || flags & 0x20000000 != 0 || flags & 0x40000000 != 0
  }

  lemma NamespaceMeans(flags: word)
    ensures CreatesNamespace(flags) <==> NewNamespace(flags)
  {
  }

  lemma ListedMeans(nr: word)
    ensures nr in DENIED <==> Listed(nr)
  {
  }

  /**
   The installed table, in numbers: a foreign architecture or an x32 call kills the process, every
   listed call and every clone with a namespace flag is refused with EPERM, clone3 does not exist,
   and every other call is allowed.
   */
  lemma InstalledFilter(acc: word, call: Call)
    ensures Exec(Program(DENIED), acc, call) == Halt(
              if call.arch != 0xc000003e || call.nr & 0x40000000 != 0 then 0x80000000
              else if Listed(call.nr) || (call.nr == 56 && NewNamespace(call.low)) then 0x00050001
              else if call.nr == 435 then 0x00050026
              else 0x7fff0000)
  {
    ProgramMeansPolicy(DENIED, acc, call);
    ListedMeans(call.nr);
    NamespaceMeans(call.low);
    hide Exec, DENIED, CreatesNamespace, NewNamespace;
  }

  const SYS_UNSHARE: word := 272
  const SYS_SETNS: word := 308

  /** What the installed table is for: no allowed call creates or enters a namespace. */
  lemma NamespacesStayClosed(acc: word, call: Call)
    requires call.nr == SYS_UNSHARE || call.nr == SYS_SETNS || call.nr == SYS_CLONE3 ||
             (call.nr == SYS_CLONE && CreatesNamespace(call.low))
    ensures Exec(Program(DENIED), acc, call) in {Halt(KILL_PROCESS), Halt(ERRNO | EPERM), Halt(ERRNO | ENOSYS)}
  {
    hide Exec;
    assert DENIED[0] == SYS_UNSHARE && DENIED[1] == SYS_SETNS;
    ProgramMeansPolicy(DENIED, acc, call);
  }
}
