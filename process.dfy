/**
 * The in-guest process controller: one `Process` object per target, with
 * its pid, thread id, the two handles and the suspended flag, driven by
 * open, close, execute, resume, terminate, inject and dump_memory.  The
 * session-wide first-process flag and startup jitter live in `Session`,
 * and the memory image goes to a `NetlogFile` sink.
 */
module WinProcess {
  import opened Wrappers
  import opened Text
  import opened WinApi
  import opened Injection
  import PQ = ProcessQueries
  import MemoryWalk

  /** The fields of a Process, as one value. */
  datatype ProcState = ProcState(pid: nat, hProcess: Handle, threadId: nat, hThread: Handle, suspended: bool)

  /**
   * The fields after `open`: a process handle is obtained for a known pid
   * (the pseudo-handle for the agent itself) and a thread handle for a known
   * thread id, each only when none is held.
   */
  function Opened(s: ProcState, k: Kernel): (t: ProcState)
    ensures t.pid == s.pid && t.threadId == s.threadId && t.suspended == s.suspended
    ensures Held(s.hProcess) || s.pid == 0 ==> t.hProcess == s.hProcess
    ensures Held(s.hThread) || s.threadId == 0 ==> t.hThread == s.hThread
    ensures s.pid != 0 && (s.pid == k.ownPid || k.openProcess(s.pid) != 0) ==> Held(t.hProcess)
    ensures s.pid != 0 && s.pid == k.ownPid && !Held(s.hProcess) ==> t.hProcess == Value(CurrentProcessHandle)
    ensures s.pid != 0 && s.pid != k.ownPid && !Held(s.hProcess) ==> t.hProcess == Value(k.openProcess(s.pid))
    ensures s.threadId != 0 && !Held(s.hThread) ==> t.hThread == Value(k.openThread(s.threadId))
  {
    var hp := if s.pid != 0 && !Held(s.hProcess)
      then Value(if s.pid == k.ownPid then CurrentProcessHandle else k.openProcess(s.pid))
      else s.hProcess;
    var ht := if s.threadId != 0 && !Held(s.hThread) then Value(k.openThread(s.threadId)) else s.hThread;
    s.(hProcess := hp, hThread := ht)
  }

  /** Opening twice is opening once. */
  lemma OpenIdempotent(s: ProcState, k: Kernel)
    ensures Opened(Opened(s, k), k) == Opened(s, k)
  {
  }

  /** `if not self.h_process: self.open()`, the guard of exit_code, get_filepath, is_critical and get_parent_pid. */
  function OpenedUnlessHeld(s: ProcState, k: Kernel): (t: ProcState)
    ensures Held(s.hProcess) ==> t == s
    ensures !Held(s.hProcess) ==> t == Opened(s, k)
    ensures t.pid == s.pid && t.threadId == s.threadId && t.suspended == s.suspended
    ensures s.pid != 0 ==> t.hProcess.Value?
  {
    if Held(s.hProcess) then s else Opened(s, k)
  }

  /** `if self.h_process == 0: self.open()`, the guard of set_terminate_event, terminate and is_64bit. */
  function OpenedIfZero(s: ProcState, k: Kernel): (t: ProcState)
    ensures s.hProcess != Value(0) ==> t == s
    ensures s.hProcess == Value(0) ==> t == Opened(s, k)
    ensures t.pid == s.pid && t.threadId == s.threadId && t.suspended == s.suspended
    ensures s.hProcess == Value(0) && s.pid != 0 && (s.pid == k.ownPid || k.openProcess(s.pid) != 0) ==> Held(t.hProcess)
  {
    if s.hProcess == Value(0) then Opened(s, k) else s
  }

  /**
   * After close the process handle is None, which is not `== 0`: the
   * terminate, terminate-event and bitness paths then do not reopen it and
   * call the system with a NULL handle.
   */
  lemma ClosedHandleNotReopened(s: ProcState, k: Kernel)
    requires s.hProcess == Cleared
    ensures OpenedIfZero(s, k) == s && Arg(OpenedIfZero(s, k).hProcess) == 0
    ensures s.pid != 0 ==> OpenedUnlessHeld(s, k).hProcess != Cleared
  {
  }

  /**
   * close of a held process handle leaves None, which the `h_process == 0`
   * guard does not reopen: the next terminate, set_terminate_event or
   * is_64bit passes a NULL handle.
   */
  lemma CloseThenNotReopened(s: ProcState, k: Kernel)
    requires Held(s.hProcess)
    ensures OpenedIfZero(Closed(s), k) == Closed(s) && Arg(OpenedIfZero(Closed(s), k).hProcess) == 0
    ensures s.pid != 0 ==> OpenedUnlessHeld(Closed(s), k).hProcess != Cleared
  {
    ClosedHandleNotReopened(Closed(s), k);
  }

  /** The fields after `close`: every held handle becomes None. */
  function Closed(s: ProcState): (t: ProcState)
    ensures !Held(t.hProcess) && !Held(t.hThread)
    ensures t.pid == s.pid && t.threadId == s.threadId && t.suspended == s.suspended
    ensures Held(s.hProcess) ==> t.hProcess == Cleared
    ensures Held(s.hThread) ==> t.hThread == Cleared
    ensures !Held(s.hProcess) ==> t.hProcess == s.hProcess
    ensures !Held(s.hThread) ==> t.hThread == s.hThread
  {
    s.(hProcess := if Held(s.hProcess) then Cleared else s.hProcess,
       hThread := if Held(s.hThread) then Cleared else s.hThread)
  }

  /** close's result: NT_SUCCESS (`>= 0`) of the last CloseHandle it made, false when it made none. */
  function CloseResult(s: ProcState, k: Kernel): (r: bool)
    ensures r ==> Held(s.hProcess) || Held(s.hThread)
    ensures Held(s.hThread) ==> (r <==> k.closeHandle(s.hThread.raw) >= 0)
    ensures !Held(s.hThread) && Held(s.hProcess) ==> (r <==> k.closeHandle(s.hProcess.raw) >= 0)
  {
    if Held(s.hThread) then k.closeHandle(s.hThread.raw) >= 0
    else if Held(s.hProcess) then k.closeHandle(s.hProcess.raw) >= 0
    else false
  }

  /** A second close changes nothing and reports false. */
  lemma CloseTwice(s: ProcState, k: Kernel)
    ensures Closed(Closed(s)) == Closed(s)
    ensures !CloseResult(Closed(s), k)
  {
  }

  /**
   * CloseHandle returns a BOOL (0 or 1), and NT_SUCCESS holds of both: close
   * therefore reports true exactly when it had a handle to close, whether or
   * not the close succeeded.
   */
  lemma CloseReportsHeld(s: ProcState, k: Kernel)
    requires forall h :: k.closeHandle(h) == 0 || k.closeHandle(h) == 1
    ensures CloseResult(s, k) <==> Held(s.hProcess) || Held(s.hThread)
  {
  }

  /** The handles __del__ closes: the thread handle if held, the process handle if held and not the pseudo-handle. */
  function ReleasedAtDestruction(s: ProcState): (r: (Option<int>, Option<int>))
    ensures r.0.Some? <==> Held(s.hProcess) && s.hProcess.raw != CurrentProcessHandle
    ensures r.1.Some? <==> Held(s.hThread)
    ensures r.0.Some? ==> r.0.value == s.hProcess.raw
    ensures r.1.Some? ==> r.1.value == s.hThread.raw
  {
    (if Held(s.hProcess) && s.hProcess.raw != CurrentProcessHandle then Some(s.hProcess.raw) else None,
     if Held(s.hThread) then Some(s.hThread.raw) else None)
  }

  /** open, close, then destruction: destruction has nothing left to close, so no handle is closed twice. */
  lemma NoDoubleClose(s: ProcState, k: Kernel)
    ensures ReleasedAtDestruction(Closed(Opened(s, k))) == (None, None)
  {
  }

  /** The sink path of a memory dump: `memory\<pid>.dmp`. */
  function DumpPath(pid: nat): (r: string)
    ensures r == "memory\\" + NatToString(pid) + ".dmp"
  {
    var name := NatToString(pid) + ".dmp";
    assert IsDigit(name[0]) && name[1] != ':';
    PathJoin("memory", name)
  }

  /**
   * inject's result once the route is chosen: the loader's exit code 0, never
   * for a 64-bit target without its loader, else the native attempt's outcome.
   */
  function Delivered(choice: Strategy, host: Host, pid: nat, threadId: nat, dllPath: string, native: NativeResult): (r: bool)
    ensures choice.NoLoader64? ==> !r
    ensures choice.UseLoader? ==> (r <==> host.runLoader(LoaderArgv(choice.loader, pid, threadId, dllPath)) == 0)
    ensures choice.UseNative? ==> (r <==> native.NativeInjected?)
  {
    match choice
    case UseLoader(l) => LoaderOutcome(host.runLoader(LoaderArgv(l, pid, threadId, dllPath))).Injected?
    case NoLoader64 => false
    case UseNative => native.NativeInjected?
  }

  /**
   * The `with open(config_path, "w")` block of inject: the file `C:\<pid>.ini`
   * carries the session's flag as it was, and the flag is then consumed.
   */
  method WriteConfig(host: Host, session: Session, pid: nat, interest: Option<string>, nosleepskip: bool) returns (config: ConfigFile)
    modifies session
    ensures config == ConfigFile(ConfigPath(pid), ConfigLines(host, pid, old(session.firstProcess), session.startupTime, interest, nosleepskip))
    ensures session.firstProcess == FirstProcessAfter(old(session.firstProcess), true)
  {
    var firstproc := session.firstProcess;
    config := ConfigFile(ConfigPath(pid), ConfigLines(host, pid, firstproc, session.startupTime, interest, nosleepskip));
    if firstproc {
      session.firstProcess := false;
    }
  }

  /** The anti-detection state shared by every process of one analysis session. */
  class Session {
    var firstProcess: bool
    const startupTime: nat

    /** `draw` is the value random.randint(1, 30) returned when the class was loaded. */
    constructor (draw: int)
      requires 1 <= draw <= 30
      ensures firstProcess
      ensures startupTime == StartupTime(draw) && ValidStartupTime(startupTime)
    {
      firstProcess := true;
      startupTime := StartupTime(draw);
    }
  }

  /** The host-side file a memory image is streamed to. */
  class NetlogFile {
    const path: string
    var sent: seq<seq<byte>>
    var closed: bool

    constructor (path: string)
      ensures this.path == path && sent == [] && !closed
    {
      this.path := path;
      sent := [];
      closed := false;
    }

    /** `sock.sendall(data)` */
    method SendAll(data: seq<byte>)
      modifies this
      ensures sent == old(sent) + [data] && closed == old(closed)
    {
      sent := sent + [data];
    }

    method Close()
      modifies this
      ensures closed && sent == old(sent)
    {
      closed := true;
    }
  }

  /**
   * The loop of dump_memory: from the minimum application address while
   * below the maximum, query the region at the cursor, send it when it is
   * dumpable and read, and move the cursor on.
   */
  method StreamRegions(k: Kernel, h: int, nf: NetlogFile)
    requires MemoryWalk.Progressing(k)
    modifies nf
    ensures nf.sent == old(nf.sent) + MemoryWalk.Image(k, h, k.systemInfo.minimumAddress, k.systemInfo.maximumAddress)
    ensures nf.closed == old(nf.closed)
  {
    var minAddr := k.systemInfo.minimumAddress;
    var maxAddr := k.systemInfo.maximumAddress;
    var mem := minAddr;
    while mem < maxAddr
      invariant old(nf.sent) + MemoryWalk.Image(k, h, minAddr, maxAddr) == nf.sent + MemoryWalk.Image(k, h, mem, maxAddr)
      invariant nf.closed == old(nf.closed)
      decreases maxAddr - mem
    {
      MemoryWalk.ImageStep(k, h, mem, maxAddr);
      ghost var sent := nf.sent;
      ghost var rest := MemoryWalk.Image(k, h, MemoryWalk.Advance(k, h, mem), maxAddr);
      ghost var here := if MemoryWalk.Chunk(k, h, mem).Some? then [MemoryWalk.Chunk(k, h, mem).value] else [];
      mem := StreamRegion(k, h, nf, mem);
      assert sent + (here + rest) == (sent + here) + rest;
    }
  }

  /**
   * One iteration of the walk: query the region at `mem`, send its buffer
   * when it is dumpable and read, and return the next cursor.
   */
  method StreamRegion(k: Kernel, h: int, nf: NetlogFile, mem: int) returns (next: int)
    modifies nf
    ensures next == MemoryWalk.Advance(k, h, mem)
    ensures nf.sent == old(nf.sent) + (if MemoryWalk.Chunk(k, h, mem).Some? then [MemoryWalk.Chunk(k, h, mem).value] else [])
    ensures nf.closed == old(nf.closed)
  {
    var pageSize := k.systemInfo.pageSize;
    var mbi := k.virtualQuery(h, mem);
    if mbi.None? {
      return mem + pageSize;
    }
    var info := mbi.value;
    if MemoryWalk.Dumpable(info) {
      var read := k.readMemory(h, mem, info.regionSize);
      if read.Some? {
        nf.SendAll(MemoryWalk.Buffer(info.regionSize, read.value));
      }
      next := mem + info.regionSize;
    } else {
      next := mem + pageSize;
    }
  }


  class Process {
    var pid: nat
    var hProcess: Handle
    var threadId: nat
    var hThread: Handle
    var suspended: bool

    constructor (pid: nat, hProcess: int, threadId: nat, hThread: int, suspended: bool)
      ensures State() == ProcState(pid, Value(hProcess), threadId, Value(hThread), suspended)
    {
      this.pid := pid;
      this.hProcess := Value(hProcess);
      this.threadId := threadId;
      this.hThread := Value(hThread);
      this.suspended := suspended;
    }

    function State(): ProcState
      reads this
    {
      ProcState(pid, hProcess, threadId, hThread, suspended)
    }

    /** Returns whether a pid or thread id is known; opens each missing handle. */
    method Open(k: Kernel) returns (ret: bool)
      modifies this
      ensures State() == Opened(old(State()), k)
      ensures ret <==> old(pid) != 0 || old(threadId) != 0
    {
      ret := pid != 0 || threadId != 0;
      if pid != 0 && !Held(hProcess) {
        if pid == k.ownPid {
          hProcess := Value(CurrentProcessHandle);
        } else {
          hProcess := Value(k.openProcess(pid));
        }
        ret := true;
      }
      if threadId != 0 && !Held(hThread) {
        hThread := Value(k.openThread(threadId));
        ret := true;
      }
    }

    method Close(k: Kernel) returns (ret: bool)
      modifies this
      ensures State() == Closed(old(State()))
      ensures ret == CloseResult(old(State()), k)
    {
      ret := Held(hProcess) || Held(hThread);
      if Held(hProcess) {
        ret := k.closeHandle(hProcess.raw) >= 0;
        hProcess := Cleared;
      }
      if Held(hThread) {
        ret := k.closeHandle(hThread.raw) >= 0;
        hThread := Cleared;
      }
    }

    method ExitCode(k: Kernel) returns (code: nat)
      modifies this
      ensures State() == OpenedUnlessHeld(old(State()), k)
      ensures code == k.exitCode(Arg(hProcess))
    {
      if !Held(hProcess) {
        var _ := Open(k);
      }
      code := k.exitCode(Arg(hProcess));
    }

    method IsAlive(k: Kernel) returns (alive: bool)
      modifies this
      ensures State() == OpenedUnlessHeld(old(State()), k)
      ensures alive <==> k.exitCode(Arg(hProcess)) == STILL_ACTIVE
    {
      var code := ExitCode(k);
      alive := code == STILL_ACTIVE;
    }

    method GetFilepath(k: Kernel, decode: seq<byte> -> string) returns (path: string)
      modifies this
      ensures State() == OpenedUnlessHeld(old(State()), k)
      ensures path == PQ.FilePath(k.imageFileName(Arg(hProcess)), decode)
      ensures var q := k.imageFileName(Arg(hProcess));
        !(q.status >= 0 && q.size > 8) || (forall j :: 0 <= j ==> !PQ.ZeroPairAt(PQ.Drop(q.buffer, 8), j)) ==> path == ""
    {
      if !Held(hProcess) {
        var _ := Open(k);
      }
      path := PQ.FilePath(k.imageFileName(Arg(hProcess)), decode);
    }

    method IsCritical(k: Kernel) returns (critical: bool)
      modifies this
      ensures State() == OpenedUnlessHeld(old(State()), k)
      ensures critical == PQ.Critical(k.breakOnTermination(Arg(hProcess)))
    {
      if !Held(hProcess) {
        var _ := Open(k);
      }
      critical := PQ.Critical(k.breakOnTermination(Arg(hProcess)));
    }

    method GetParentPid(k: Kernel) returns (parent: Option<int>)
      modifies this
      ensures State() == OpenedUnlessHeld(old(State()), k)
      ensures parent == PQ.ParentPid(k.basicInformation(Arg(hProcess)))
    {
      if !Held(hProcess) {
        var _ := Open(k);
      }
      parent := PQ.ParentPid(k.basicInformation(Arg(hProcess)));
    }

    /**
     * Starts `path` in a new console, suspended when asked.  The suspended
     * flag is raised before CreateProcessA runs, so it stays raised when the
     * creation fails.
     */
    method Execute(k: Kernel, path: string, args: Option<string>, suspend: bool) returns (ok: bool)
      modifies this
      ensures !k.executable(path) ==> !ok && State() == old(State())
      ensures k.executable(path) ==>
        var c := k.createProcess(path, PQ.CommandLine(path, args), PQ.CreationFlags(suspend));
        && ok == c.created
        && suspended == (old(suspended) || suspend)
        && (ok ==> pid == c.info.processId && hProcess == Value(c.info.hProcess)
                   && threadId == c.info.threadId && hThread == Value(c.info.hThread))
        && (!ok ==> pid == old(pid) && hProcess == old(hProcess) && threadId == old(threadId) && hThread == old(hThread))
    {
      if !k.executable(path) {
        return false;
      }
      var arguments := "\"" + path + "\" ";
      if args.Some? && args.value != "" {
        arguments := arguments + args.value;
      }
      assert arguments == PQ.CommandLine(path, args);
      var flags := CREATE_NEW_CONSOLE;
      if suspend {
        suspended := true;
        flags := flags + CREATE_SUSPENDED;
      }
      assert flags == PQ.CreationFlags(suspend);
      var c := k.createProcess(path, arguments, flags);
      if c.created {
        pid := c.info.processId;
        hProcess := Value(c.info.hProcess);
        threadId := c.info.threadId;
        hThread := Value(c.info.hThread);
        ok := true;
      } else {
        ok := false;
      }
    }

    /** Resumes a process created suspended; the flag drops only when ResumeThread succeeds. */
    method Resume(k: Kernel) returns (ok: bool)
      modifies this
      ensures ok <==> old(suspended) && Held(old(hThread)) && k.resumeThread(old(hThread).raw) != ResumeFailed
      ensures State() == old(State()).(suspended := old(suspended) && !ok)
    {
      if !suspended {
        return false;
      }
      if !Held(hThread) {
        return false;
      }
      if k.resumeThread(hThread.raw) != ResumeFailed {
        suspended := false;
        ok := true;
      } else {
        ok := false;
      }
    }

    /**
     * Signals the process's termination event.  `signaled` says whether the
     * event could be opened, and so whether SetEvent, CloseHandle and the
     * half-second wait took place.
     */
    method SetTerminateEvent(k: Kernel, host: Host) returns (signaled: bool)
      modifies this
      ensures State() == OpenedIfZero(old(State()), k)
      ensures signaled <==> k.openEvent(TerminateEventName(host, pid)) != 0
    {
      if hProcess == Value(0) {
        var _ := Open(k);
      }
      var eventHandle := k.openEvent(TerminateEventName(host, pid));
      signaled := eventHandle != 0;
    }

    /** Signals the termination event, then TerminateProcess with exit code 1. */
    method Terminate(k: Kernel, host: Host) returns (ok: bool)
      modifies this
      ensures State() == OpenedIfZero(old(State()), k)
      ensures ok <==> k.terminateProcess(Arg(hProcess), 1) != 0
    {
      if hProcess == Value(0) {
        var _ := Open(k);
      }
      OpenIdempotent(old(State()), k);
      var _ := SetTerminateEvent(k, host);
      ok := k.terminateProcess(Arg(hProcess), 1) != 0;
    }

    method Is64Bit(k: Kernel) returns (is64: bool)
      modifies this
      ensures State() == OpenedIfZero(old(State()), k)
      ensures is64 == PQ.Is64Bit(k.isWow64(Arg(hProcess)), k.machine)
    {
      if hProcess == Value(0) {
        var _ := Open(k);
      }
      is64 := PQ.Is64Bit(k.isWow64(Arg(hProcess)), k.machine);
    }

    /**
     * old_inject: allocate room for the path and its NUL, write it, then queue
     * an APC on the thread (when `apc` or suspended) or start a remote thread
     * at LoadLibraryA; the first failing step ends the attempt.
     */
    function OldInject(k: Kernel, dll: string, apc: bool): (r: NativeResult)
      reads this
      ensures var arg := k.virtualAllocEx(Arg(hProcess), |dll| + 1);
        && (arg == 0 ==> r == NativeFailed(Allocation))
        && (arg != 0 && !k.writeProcessMemory(Arg(hProcess), arg, dll + "\0") ==> r == NativeFailed(Write))
        && (r.NativeInjected? ==> (r.via == Apc <==> apc || suspended))
        && (r.NativeInjected? <==>
              arg != 0 && k.writeProcessMemory(Arg(hProcess), arg, dll + "\0")
              && if apc || suspended then Held(hThread) && k.queueUserApc(Arg(hThread), arg)
                 else k.createRemoteThread(Arg(hProcess), arg) != 0)
    {
      var arg := k.virtualAllocEx(Arg(hProcess), |dll| + 1);
      if arg == 0 then NativeFailed(Allocation)
      else if !k.writeProcessMemory(Arg(hProcess), arg, dll + "\0") then NativeFailed(Write)
      else if apc || suspended then
        if !Held(hThread) then NativeFailed(MissingThread)
        else if !k.queueUserApc(Arg(hThread), arg) then NativeFailed(Queue)
        else NativeInjected(Apc)
      else if k.createRemoteThread(Arg(hProcess), arg) == 0 then NativeFailed(CreateThread)
      else NativeInjected(RemoteThread)
    }

    /**
     * Injects the monitor DLL.  Nothing is written when the pid is unknown,
     * the process is not alive or the DLL is missing; otherwise the
     * configuration file is written, the session's first-process flag is
     * consumed, and the loader or native injection decides the result.
     */
    method Inject(k: Kernel, host: Host, session: Session, dll: Option<string>, interest: Option<string>, nosleepskip: bool)
      returns (ok: bool, config: Option<ConfigFile>, strategy: Option<Strategy>)
      modifies this, session
      ensures old(pid) == 0 ==> !ok && config.None? && strategy.None? && State() == old(State())
      ensures
        var s1 := OpenedUnlessHeld(old(State()), k);
        var alive := k.exitCode(Arg(s1.hProcess)) == STILL_ACTIVE;
        var s2 := OpenedIfZero(s1, k);
        var is64 := PQ.Is64Bit(k.isWow64(Arg(s2.hProcess)), k.machine);
        var dllPath := RandomizeDll(PathJoin("dll", MonitorDll(dll, is64)), host);
        var proceeds := old(pid) != 0 && alive && dllPath != "" && host.pathExists(dllPath);
        && (old(pid) != 0 ==> State() == if alive then s2 else s1)
        && (config.Some? <==> proceeds)
        && (strategy.Some? <==> proceeds)
        && (!proceeds ==> !ok)
        && (proceeds ==>
              && config == Some(ConfigFile(ConfigPath(old(pid)),
                   ConfigLines(host, old(pid), old(session.firstProcess), session.startupTime, interest, nosleepskip)))
              && strategy == Some(ChooseStrategy(is64, host))
              && ok == Delivered(ChooseStrategy(is64, host), host, old(pid), old(threadId), dllPath,
                                 OldInject(k, dllPath, old(threadId) != 0 || old(suspended))))
      ensures session.firstProcess == FirstProcessAfter(old(session.firstProcess), config.Some?)
    {
      config, strategy := None, None;
      if pid == 0 {
        return false, config, strategy;
      }
      var tid := threadId;
      var proceeds, is64, dllPath := CheckTarget(k, host, dll);
      if !proceeds {
        return false, config, strategy;
      }
      var written := WriteConfig(host, session, pid, interest, nosleepskip);
      config := Some(written);
      var choice;
      ok, choice := Deliver(k, host, is64, tid, dllPath);
      strategy := Some(choice);
    }

    /**
     * The checks inject makes before writing anything: the process is alive,
     * its bitness picks the default DLL, and the randomized copy (or the
     * original when the copy fails) exists.
     */
    method CheckTarget(k: Kernel, host: Host, dll: Option<string>) returns (proceeds: bool, is64: bool, dllPath: string)
      requires pid != 0
      modifies this
      ensures
        var s1 := OpenedUnlessHeld(old(State()), k);
        var alive := k.exitCode(Arg(s1.hProcess)) == STILL_ACTIVE;
        var s2 := OpenedIfZero(s1, k);
        var bits := PQ.Is64Bit(k.isWow64(Arg(s2.hProcess)), k.machine);
        var path := RandomizeDll(PathJoin("dll", MonitorDll(dll, bits)), host);
        && State() == (if alive then s2 else s1)
        && (proceeds <==> alive && path != "" && host.pathExists(path))
        && (proceeds ==> is64 == bits && dllPath == path)
    {
      var alive := IsAlive(k);
      if !alive {
        return false, false, "";
      }
      is64 := Is64Bit(k);
      dllPath := RandomizeDll(PathJoin("dll", MonitorDll(dll, is64)), host);
      proceeds := dllPath != "" && host.pathExists(dllPath);
    }

    /**
     * The last part of inject: run the loader for the target's bitness, or
     * fail for a 64-bit target without one, or inject natively into a
     * 32-bit target, by APC when a thread id is known or the process is
     * suspended.
     */
    method Deliver(k: Kernel, host: Host, is64: bool, tid: nat, dllPath: string) returns (ok: bool, choice: Strategy)
      ensures choice == ChooseStrategy(is64, host)
      ensures ok == Delivered(choice, host, pid, tid, dllPath, OldInject(k, dllPath, tid != 0 || suspended))
      ensures ok ==> choice.UseLoader? || choice.UseNative?
    {
      choice := ChooseStrategy(is64, host);
      match choice
      case UseLoader(loader) =>
        var ret := host.runLoader(LoaderArgv(loader, pid, tid, dllPath));
        ok := LoaderOutcome(ret).Injected?;
      case NoLoader64 =>
        ok := false;
      case UseNative =>
        ok := OldInject(k, dllPath, tid != 0 || suspended).NativeInjected?;
    }

    /**
     * Streams the process's memory to `memory\<pid>.dmp`: a walk from the
     * minimum to the maximum application address that sends every region
     * that is committed, of image, mapped or private type, and readable.
     */
    method DumpMemory(k: Kernel) returns (ok: bool, sink: NetlogFile?)
      requires MemoryWalk.Progressing(k)
      modifies this
      ensures old(pid) == 0 ==> !ok && sink == null && State() == old(State())
      ensures old(pid) != 0 ==> State() == OpenedUnlessHeld(old(State()), k)
      ensures ok <==> old(pid) != 0 && k.exitCode(Arg(hProcess)) == STILL_ACTIVE
      ensures !ok ==> sink == null
      ensures ok ==> && sink != null && fresh(sink) && sink.closed && sink.path == DumpPath(pid)
                     && sink.sent == MemoryWalk.Image(k, Arg(hProcess), k.systemInfo.minimumAddress, k.systemInfo.maximumAddress)
    {
      if pid == 0 {
        return false, null;
      }
      var alive := IsAlive(k);
      if !alive {
        return false, null;
      }
      var nf := new NetlogFile(DumpPath(pid));
      StreamRegions(k, Arg(hProcess), nf);
      nf.Close();
      return true, nf;
    }
  }
}
