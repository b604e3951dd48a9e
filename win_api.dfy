/**
 * The Win32 / NT surface the process controller talks to, reduced to the
 * answers it gets back.  Every system call is an oracle field of `Kernel`:
 * a total function with no contract beyond its type, so every property
 * proved about the controller holds whatever the operating system answers.
 */
module WinApi {
  import opened Wrappers

  newtype byte = x: int | 0 <= x < 256

  /** GetExitCodeProcess's code for a process that has not exited. */
  const STILL_ACTIVE: nat := 259
  /** GetCurrentProcess's pseudo-handle, as ctypes' default signed result reads it. */
  const CurrentProcessHandle: int := -1
  /** ResumeThread's failure value (0xFFFFFFFF read as a signed int). */
  const ResumeFailed: int := -1

  const CREATE_SUSPENDED: int := 0x4
  const CREATE_NEW_CONSOLE: int := 0x10

  const MEM_COMMIT: bv32 := 0x1000
  const MEM_PRIVATE: bv32 := 0x20000
  const MEM_MAPPED: bv32 := 0x40000
  const MEM_IMAGE: bv32 := 0x1000000

  /** sizeof(c_int * 6), the buffer handed to the class-0 information query. */
  const BasicInformationSize: int := 24

  /**
   * A handle field of the controller.  `Cleared` is Python's None, which
   * `close` stores; `Value(0)` is the initial value or a failed open.
   */
  datatype Handle = Cleared | Value(raw: int)

  /** Python truthiness of a handle field. */
  predicate Held(h: Handle) {
    h.Value? && h.raw != 0
  }

  /** The value a handle field passes to a system call (None becomes NULL). */
  function Arg(h: Handle): int {
    if h.Cleared? then 0 else h.raw
  }

  /** NtQueryInformationProcess, class 27: status, returned length, the 200-byte buffer. */
  datatype ImageNameInfo = ImageNameInfo(status: int, size: int, buffer: seq<byte>)

  /** NtQueryInformationProcess, class 29: status and the "break on termination" word. */
  datatype FlagInfo = FlagInfo(status: int, value: nat)

  /** The six ints of the class-0 buffer; index 5 is the parent's process id. */
  datatype BasicInformation = BasicInformation(
    exitStatus: int, pebBaseAddress: int, affinityMask: int,
    basePriority: int, uniqueProcessId: int, inheritedFromUniqueProcessId: int)

  /** NtQueryInformationProcess, class 0: status, returned length, the buffer. */
  datatype BasicInfo = BasicInfo(status: int, size: int, info: BasicInformation)

  /** IsWow64Process: its BOOL result and the flag it stores. */
  datatype Wow64Info = Wow64Info(ret: int, wow64: int)

  /** GetSystemInfo: page size and the application address range. */
  datatype SystemInfo = SystemInfo(pageSize: nat, minimumAddress: int, maximumAddress: int)

  /** MEMORY_BASIC_INFORMATION as far as the dump reads it. */
  datatype MemoryInfo = MemoryInfo(state: bv32, kind: bv32, regionSize: nat)

  /** PROCESS_INFORMATION filled in by CreateProcessA. */
  datatype ProcessInformation = ProcessInformation(hProcess: int, hThread: int, processId: nat, threadId: nat)

  /** CreateProcessA's BOOL result and what it wrote. */
  datatype Creation = Creation(created: bool, info: ProcessInformation)

  datatype Kernel = Kernel(
    /** os.getpid() of the agent */
    ownPid: nat,
    /** OpenProcess(PROCESS_ALL_ACCESS, False, pid); 0 on failure */
    openProcess: nat -> int,
    /** OpenThread(THREAD_ALL_ACCESS, False, tid); 0 on failure */
    openThread: nat -> int,
    /** CloseHandle(h) as ctypes returns it */
    closeHandle: int -> int,
    /** the value GetExitCodeProcess(h) leaves in exit_code (0 if the call fails) */
    exitCode: int -> nat,
    /** NtQueryInformationProcess(h, 27, ...) */
    imageFileName: int -> ImageNameInfo,
    /** NtQueryInformationProcess(h, 29, ...) */
    breakOnTermination: int -> FlagInfo,
    /** NtQueryInformationProcess(h, 0, ...) */
    basicInformation: int -> BasicInfo,
    /** IsWow64Process(h, &val); None when the call raises */
    isWow64: int -> Option<Wow64Info>,
    /** platform.machine() */
    machine: string,
    /** os.access(path, os.X_OK) */
    executable: string -> bool,
    /** CreateProcessA(path, command line, ..., creation flags, ...) */
    createProcess: (string, string, int) -> Creation,
    /** ResumeThread(h) */
    resumeThread: int -> int,
    /** OpenEventA(EVENT_MODIFY_STATE, False, name); 0 when there is no such event */
    openEvent: string -> int,
    /** TerminateProcess(h, exit code) */
    terminateProcess: (int, int) -> int,
    /** VirtualAllocEx(h, None, size, MEM_RESERVE | MEM_COMMIT, PAGE_READWRITE) */
    virtualAllocEx: (int, nat) -> int,
    /** WriteProcessMemory(h, address, text, ...) */
    writeProcessMemory: (int, int, string) -> bool,
    /** QueueUserAPC(LoadLibraryA, thread handle, argument) */
    queueUserApc: (int, int) -> bool,
    /** CreateRemoteThread(h, ..., LoadLibraryA, argument, ...); 0 on failure */
    createRemoteThread: (int, int) -> int,
    /** GetSystemInfo */
    systemInfo: SystemInfo,
    /** VirtualQueryEx(h, address, ...); None when it fills less than the whole record */
    virtualQuery: (int, int) -> Option<MemoryInfo>,
    /** ReadProcessMemory(h, address, buffer, size, ...); None when it fails, else the bytes copied */
    readMemory: (int, int, nat) -> Option<seq<byte>>
  )
}
