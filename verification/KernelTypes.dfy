/** The kernel's data: tasks, endpoints, events and the whole kernel state as values. */
module KernelTypes {

  datatype Option<+T> = None | Some(value: T)

  /** A 64-bit word: IPC messages, replies and error codes. */
  type Word = bv64

  type TaskId = nat

  const IPC_ERR_DEAD_PARTNER: Word := 0xDEAD_DEAD_DEAD_DEAD
  const IPC_ERR_ENDPOINT_CLOSED: Word := 0xC105_ED00_C105_ED00
  const IPC_ERR_CAPACITY: Word := 0xC0DE_C0DE_C0DE_C0DE
  const IPC_ERR_RECV_ALREADY_WAITING: Word := 0xBADC_0FFE_BADC_0FFE

  const SYSCALL_ERR_ARCH_FAILED: nat := 10

  const TASK0_INDEX: nat := 0
  const TASK1_INDEX: nat := 1
  const TASK2_INDEX: nat := 2
  const IPC_DEMO_EP0: nat := 0
  const IPC_KICK_PERIOD_TICKS: nat := 8

  datatype TaskState = Ready | Running | Blocked | Dead

  /** Why a blocked task waits. `partner` is a task id, `ep` an endpoint index. */
  datatype BlockedReason =
    | IpcRecv(ep: nat)
    | IpcSend(ep: nat)
    | IpcReply(partner: TaskId, ep: nat)

  datatype Syscall =
    | CallRecv(ep: nat)
    | CallSend(ep: nat, msg: Word)
    | CallReply(ep: nat, msg: Word)
    | CallPageMap(page: nat, flags: Flags)
    | CallPageUnmap(page: nat)

  datatype SpaceKind = KernelSpace | UserSpace

  /** Page flags besides PRESENT, which every mapping carries. */
  datatype Flags = Flags(writable: bool, user: bool, noExec: bool)

  /** What is mapped at a page. */
  datatype Leaf = Leaf(frame: nat, flags: Flags)

  /** An address space: the mappings it records, by page offset; the leaves of its page table
      that the kernel put there, by page; and whether it has a root. */
  datatype Space = Space(record: map<nat, Leaf>, leaves: map<nat, Leaf>, rooted: bool)

  /** One task, with the address space it owns and its part of the memory demo. */
  datatype Task = Task(
    id: TaskId,
    state: TaskState,
    priority: nat,
    runtimeTicks: nat,
    slice: nat,
    kind: SpaceKind,
    space: Space,
    reason: Option<BlockedReason>,
    lastMsg: Option<Word>,
    lastReply: Option<Word>,
    sysRet: Option<nat>,
    sysRetUnread: bool,
    pendingMsg: Option<Word>,
    pendingCall: Option<Syscall>,
    stage: nat,
    demoFrame: Option<nat>,
    demoMapped: bool)

  /** One endpoint: a single receiver and two waiting lines of task indices. */
  datatype Endpoint = Endpoint(
    owner: Option<TaskId>,
    closed: bool,
    receiver: Option<nat>,
    senders: seq<nat>,
    repliers: seq<nat>)

  /** An endpoint without owner that nobody waits at. */
  const EMPTY := Endpoint(None, false, None, [], [])

  datatype KillReason = UserPageFault | DemoInjected

  datatype Event =
    | TickStarted(tick: nat)
    | TimerUpdated(time: nat)
    | FrameAllocated
    | TaskSwitched(task: TaskId)
    | TaskStateChanged(task: TaskId, state: TaskState)
    | ReadyQueued(task: TaskId)
    | ReadyDequeued(task: TaskId)
    | RuntimeUpdated(task: TaskId, ticks: nat)
    | QuantumExpired(task: TaskId, used: nat)
    | MemActionApplied(task: TaskId)
    | SyscallIssued(task: TaskId)
    | SyscallHandled(task: TaskId)
    | IpcRecvCalled(task: TaskId, ep: nat)
    | IpcRecvBlocked(task: TaskId, ep: nat)
    | IpcSendCalled(task: TaskId, ep: nat, msg: Word)
    | IpcSendBlocked(task: TaskId, ep: nat)
    | IpcDelivered(from: TaskId, to: TaskId, ep: nat, msg: Word)
    | IpcReplyCalled(task: TaskId, ep: nat, to: TaskId)
    | IpcReplyDelivered(from: TaskId, to: TaskId, ep: nat)
    | TaskKilled(task: TaskId, reason: KillReason)

  datatype Activity = Idle | UpdatingTimer | AllocatingFrame | MappingDemoPage

  datatype Counters = Counters(
    switches: nat,
    sendFast: nat,
    sendSlow: nat,
    recvFast: nat,
    recvSlow: nat,
    replyDelivered: nat,
    killedUserPf: nat,
    killedDemo: nat)

  /** Time, whether the kernel has asked to stop, and whether it has panicked. */
  datatype Clock = Clock(tickCount: nat, timeTicks: nat, activity: Activity, halted: bool, haltDumped: bool, panicked: bool)

  /** What a build and its boot fix once: the quantum, whether real root switches are
      allowed, whether the page-fault demo is built in, and how many frames there are. */
  datatype Config = Config(quantum: nat, allowSwitch: bool, pfDemo: bool, supply: nat)

  /** The kernel state. `ready`, `senders` and `repliers` are the filled parts of
      their fixed-size buffers, whose capacity is the number of tasks. `cr3` is the
      index of the address space whose root is loaded, the kernel's being 0. Frames are
      numbered in the order of the allocator, which has handed out `taken` of them; what the
      boot loader mapped has other numbers. `history` is the unbounded sequence of pushed events. */
  datatype State = State(
    tasks: seq<Task>,
    current: nat,
    ready: seq<nat>,
    endpoints: seq<Endpoint>,
    cr3: nat,
    taken: nat,
    sentByTask1: bool,
    counters: Counters,
    history: seq<Event>,
    clock: Clock,
    config: Config)

  /** The program run for the current task: the built-in demo, or any other. */
  datatype UserChoice =
    | DemoProgram
    | AnyProgram(call: Option<Syscall>, takeMsg: bool, takeReply: bool)

  /** What the environment decides in one tick: how many tables a map has to create, whether a
      guarded access faults, what the program does and whether a receiver is killed. */
  datatype TickInput = TickInput(
    tables: nat,
    fault: bool,
    choice: UserChoice,
    killReceiver: bool)
}
