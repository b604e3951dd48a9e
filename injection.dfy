/**
 * The injection engine's rules: which monitor DLL, the name-randomizing
 * copy and its fallback, the per-process configuration file, the session's
 * first-process flag and startup jitter, the choice between the external
 * loaders and native injection, and how the loader's exit code is read.
 */
module Injection {
  import opened Wrappers
  import opened Text

  /**
   * What the agent's host side supplies: the working directory, the values
   * of analysis.conf, the constants of lib/common/constants.py (a file that
   * is not part of this model, so they are inputs here), and the outcomes
   * of filesystem and subprocess calls.
   */
  datatype Host = Host(
    /** os.getcwd() */
    cwd: string,
    /** cfg.ip, cfg.port and cfg.get_options() of analysis.conf */
    hostIp: string,
    hostPort: string,
    options: map<string, string>,
    /** PIPE, PATHS["root"], SHUTDOWN_MUTEX, TERMINATE_EVENT */
    pipe: string,
    resultsRoot: string,
    shutdownMutex: string,
    terminateEvent: string,
    /** os.path.exists(path) */
    pathExists: string -> bool,
    /** whether shutil.copy(source, destination) succeeds */
    copy: (string, string) -> bool,
    /** random_string(6) */
    randomName: string,
    /** the exit code of subprocess.call(argv) */
    runLoader: seq<string> -> int
  )

  const Dll32 := "cuckoomon.dll"
  const Dll64 := "cuckoomon_x64.dll"
  const Loader32Path := "bin/loader.exe"
  const Loader64Path := "bin/loader_x64.exe"

  /** The DLL name inject starts from: the caller's, unless absent or empty, else by bitness. */
  function MonitorDll(dll: Option<string>, is64: bool): (r: string)
    ensures dll.Some? && dll.value != "" ==> r == dll.value
    ensures (dll.None? || dll.value == "") ==> r == (if is64 then Dll64 else Dll32)
  {
    if dll.Some? && dll.value != "" then dll.value else if is64 then Dll64 else Dll32
  }

  /** Where randomize_dll copies the DLL: `<cwd>\dll\<random>.dll`. */
  function RandomDllPath(host: Host): (r: string)
    ensures EndsWith(r, host.randomName + ".dll") && EndsWith(r, ".dll")
    ensures !IsAbsolute(host.randomName + ".dll") ==> r == PathJoin(host.cwd, "dll") + "\\" + host.randomName + ".dll"
  {
    var name := host.randomName + ".dll";
    var r := PathJoin(PathJoin(host.cwd, "dll"), name);
    assert EndsWith(name, ".dll") by {
      assert name[|name| - 4..] == ".dll";
    }
    EndsWithTrans(r, name, ".dll");
    r
  }

  /** randomize_dll: the random copy when it could be made, the original path otherwise. */
  function RandomizeDll(dllPath: string, host: Host): (r: string)
    ensures host.copy(dllPath, RandomDllPath(host)) ==> r == RandomDllPath(host)
    ensures !host.copy(dllPath, RandomDllPath(host)) ==> r == dllPath
    ensures EndsWith(r, ".dll") || r == dllPath
  {
    if host.copy(dllPath, RandomDllPath(host)) then RandomDllPath(host) else dllPath
  }

  /** The configuration file of process `pid`: `C:\<pid>.ini`. */
  function ConfigPath(pid: nat): (r: string)
    ensures StartsWith(r, "C:\\") && EndsWith(r, ".ini")
    ensures |r| == |NatToString(pid)| + 7 && r[3..|r| - 4] == NatToString(pid)
  {
    "C:\\" + NatToString(pid) + ".ini"
  }

  /** One configuration file per pid: two pids never share a path. */
  lemma ConfigPathInjective(p: nat, q: nat)
    requires ConfigPath(p) == ConfigPath(q)
    ensures p == q
  {
    NatToStringInjective(p, q);
  }

  /** `format(interest)`: Python prints a missing file of interest as "None". */
  function InterestText(interest: Option<string>): (r: string)
    ensures interest.Some? ==> r == interest.value
    ensures interest.None? ==> r == "None"
  {
    if interest.Some? then interest.value else "None"
  }

  /** One `key=value` line of the configuration file. */
  function Entry(key: string, value: string): (line: string)
    ensures StartsWith(line, key + "=") && line[|key| + 1..] == value
  {
    assert (key + "=" + value)[..|key| + 1] == key + "=";
    key + "=" + value
  }

  /** The optional last line: forced to 0 by the caller, else copied from the options. */
  function SleepSkipLines(host: Host, nosleepskip: bool): (r: seq<string>)
    ensures |r| <= 1
    ensures r != [] <==> nosleepskip || "force-sleepskip" in host.options
    ensures r != [] ==> StartsWith(r[0], "force-sleepskip=")
    ensures nosleepskip ==> r[0][16..] == "0"
    ensures !nosleepskip && "force-sleepskip" in host.options ==> r[0][16..] == host.options["force-sleepskip"]
  {
    if nosleepskip then [Entry("force-sleepskip", "0")]
    else if "force-sleepskip" in host.options then [Entry("force-sleepskip", host.options["force-sleepskip"])]
    else []
  }

  /** The name of the event a process's monitor waits on: TERMINATE_EVENT followed by the pid. */
  function TerminateEventName(host: Host, pid: nat): (r: string)
    ensures StartsWith(r, host.terminateEvent)
    ensures forall i :: |host.terminateEvent| <= i < |r| ==> IsDigit(r[i])
    ensures DecimalValue(r[|host.terminateEvent|..]) == pid
  {
    var r := host.terminateEvent + NatToString(pid);
    assert r[..|host.terminateEvent|] == host.terminateEvent && r[|host.terminateEvent|..] == NatToString(pid);
    DecimalRoundTrip(pid);
    r
  }

  /** The keys of the ten fixed lines, in the order inject writes them. */
  const ConfigKeys: seq<string> := ["host-ip", "host-port", "pipe", "results", "analyzer", "first-process",
                                    "startup-time", "file-of-interest", "shutdown-mutex", "terminate-event"]

  /** The values inject writes after those keys, in the same order. */
  function FixedValues(host: Host, pid: nat, first: bool, startupTime: nat, interest: Option<string>): (vs: seq<string>)
    ensures |vs| == |ConfigKeys|
  {
    [ host.hostIp, host.hostPort, host.pipe, host.resultsRoot, host.cwd, if first then "1" else "0",
      NatToString(startupTime), InterestText(interest), host.shutdownMutex, TerminateEventName(host, pid) ]
  }

  /** The lines of the configuration file, each written with a trailing newline. */
  function ConfigLines(host: Host, pid: nat, first: bool, startupTime: nat, interest: Option<string>, nosleepskip: bool): (r: seq<string>)
    ensures |r| == 10 + |SleepSkipLines(host, nosleepskip)|
    ensures r[10..] == SleepSkipLines(host, nosleepskip)
  {
    var vs := FixedValues(host, pid, first, startupTime, interest);
    seq(10, i requires 0 <= i < 10 => Entry(ConfigKeys[i], vs[i])) + SleepSkipLines(host, nosleepskip)
  }

  datatype ConfigFile = ConfigFile(path: string, lines: seq<string>)

  /** How the monitor reads a key back: the text after `key=` on the first line that starts so. */
  function ConfigValue(lines: seq<string>, key: string): Option<string> {
    if lines == [] then None
    else if StartsWith(lines[0], key + "=") then Some(lines[0][|key| + 1..])
    else ConfigValue(lines[1..], key)
  }

  /** The first three letters of each fixed key. */
  const KeyInitials: string := "hhprafsfst"
  const KeySeconds: string := "ooienitihe"
  const KeyThirds: string := "sspsaralur"

  lemma KeyLetters()
    ensures forall j :: 0 <= j < 10 ==>
      && |ConfigKeys[j]| > 2 && ConfigKeys[j][0] == KeyInitials[j]
      && ConfigKeys[j][1] == KeySeconds[j] && ConfigKeys[j][2] == KeyThirds[j]
  {
  }

  /** Each fixed line is its key, `=`, and its value, so its first three letters are the key's. */
  lemma ConfigLineKeys(host: Host, pid: nat, first: bool, startupTime: nat, interest: Option<string>, nosleepskip: bool)
    ensures var lines := ConfigLines(host, pid, first, startupTime, interest, nosleepskip);
      forall i :: 0 <= i < 10 ==>
        && StartsWith(lines[i], ConfigKeys[i] + "=")
        && lines[i][|ConfigKeys[i]| + 1..] == FixedValues(host, pid, first, startupTime, interest)[i]
        && |lines[i]| > 2 && lines[i][0] == KeyInitials[i] && lines[i][1] == KeySeconds[i] && lines[i][2] == KeyThirds[i]
  {
    var lines := ConfigLines(host, pid, first, startupTime, interest, nosleepskip);
    var vs := FixedValues(host, pid, first, startupTime, interest);
    KeyLetters();
    forall i | 0 <= i < 10
      ensures StartsWith(lines[i], ConfigKeys[i] + "=") && lines[i][|ConfigKeys[i]| + 1..] == vs[i]
      ensures |lines[i]| > 2 && lines[i][0] == KeyInitials[i] && lines[i][1] == KeySeconds[i] && lines[i][2] == KeyThirds[i]
    {
      var line := Entry(ConfigKeys[i], vs[i]);
      assert lines[i] == line;
      var head := line[..|ConfigKeys[i]| + 1];
      assert head[0] == line[0] && head[1] == line[1] && head[2] == line[2];
    }
  }

  /** The value of `key` is on line `i` when no earlier line starts with `key=`. */
  lemma {:induction false} ConfigValueAt(lines: seq<string>, key: string, i: nat)
    requires i < |lines| && StartsWith(lines[i], key + "=")
    requires forall j :: 0 <= j < i ==> !StartsWith(lines[j], key + "=")
    ensures ConfigValue(lines, key) == Some(lines[i][|key| + 1..])
  {
    if i > 0 {
      assert !StartsWith(lines[0], key + "=");
      assert lines[1..][i - 1] == lines[i];
      ConfigValueAt(lines[1..], key, i - 1);
    }
  }

  /** No line at all starts with `key=`. */
  lemma {:induction false} ConfigValueAbsent(lines: seq<string>, key: string)
    requires forall j :: 0 <= j < |lines| ==> !StartsWith(lines[j], key + "=")
    ensures ConfigValue(lines, key) == None
  {
    if lines != [] {
      assert !StartsWith(lines[0], key + "=");
      ConfigValueAbsent(lines[1..], key);
    }
  }

  /** `line` cannot start with `key=`: one of its first three letters differs. */
  predicate OtherKey(line: string, key: string)
    requires |key| > 2
  {
    |line| > 2 && (line[0] != key[0] || line[1] != key[1] || line[2] != key[2])
  }

  /** A key is found on line `i` when every earlier line starts with other letters. */
  lemma FirstLetterSearch(lines: seq<string>, key: string, i: nat)
    requires |key| > 2 && i < |lines| && StartsWith(lines[i], key + "=")
    requires forall j :: 0 <= j < i ==> OtherKey(lines[j], key)
    ensures ConfigValue(lines, key) == Some(lines[i][|key| + 1..])
  {
    forall j | 0 <= j < i ensures !StartsWith(lines[j], key + "=") {
      assert (key + "=")[0] == key[0] && (key + "=")[1] == key[1] && (key + "=")[2] == key[2];
    }
    ConfigValueAt(lines, key, i);
  }

  /** A key is absent when every line starts with other letters. */
  lemma FirstLetterAbsent(lines: seq<string>, key: string)
    requires |key| > 2
    requires forall j :: 0 <= j < |lines| ==> OtherKey(lines[j], key)
    ensures ConfigValue(lines, key) == None
  {
    forall j | 0 <= j < |lines| ensures !StartsWith(lines[j], key + "=") {
      assert (key + "=")[0] == key[0] && (key + "=")[1] == key[1] && (key + "=")[2] == key[2];
    }
    ConfigValueAbsent(lines, key);
  }

  /** The monitor reads back the host's address, which is the first line. */
  lemma ConfigReadsHostIp(host: Host, pid: nat, first: bool, startupTime: nat, interest: Option<string>, nosleepskip: bool)
    ensures ConfigValue(ConfigLines(host, pid, first, startupTime, interest, nosleepskip), "host-ip") == Some(host.hostIp)
  {
    ConfigLineKeys(host, pid, first, startupTime, interest, nosleepskip);
    ConfigValueAt(ConfigLines(host, pid, first, startupTime, interest, nosleepskip), "host-ip", 0);
  }

  /** The monitor reads back the host's port: the `host-ip` line before it differs at its sixth letter. */
  lemma ConfigReadsHostPort(host: Host, pid: nat, first: bool, startupTime: nat, interest: Option<string>, nosleepskip: bool)
    ensures ConfigValue(ConfigLines(host, pid, first, startupTime, interest, nosleepskip), "host-port") == Some(host.hostPort)
  {
    var lines := ConfigLines(host, pid, first, startupTime, interest, nosleepskip);
    ConfigLineKeys(host, pid, first, startupTime, interest, nosleepskip);
    assert lines[0][..8][5] == lines[0][5];
    forall j | 0 <= j < 1 ensures !StartsWith(lines[j], "host-port" + "=") {
      assert ("host-port" + "=")[5] == 'p';
    }
    ConfigValueAt(lines, "host-port", 1);
  }

  /** The monitor reads back the name of the analyzer's pipe. */
  lemma ConfigReadsPipe(host: Host, pid: nat, first: bool, startupTime: nat, interest: Option<string>, nosleepskip: bool)
    ensures ConfigValue(ConfigLines(host, pid, first, startupTime, interest, nosleepskip), "pipe")
         == Some(host.pipe)
  {
    ConfigLineKeys(host, pid, first, startupTime, interest, nosleepskip);
    KeyLetters();
    FirstLetterSearch(ConfigLines(host, pid, first, startupTime, interest, nosleepskip), "pipe", 2);
  }

  /** The monitor reads back the results root. */
  lemma ConfigReadsResults(host: Host, pid: nat, first: bool, startupTime: nat, interest: Option<string>, nosleepskip: bool)
    ensures ConfigValue(ConfigLines(host, pid, first, startupTime, interest, nosleepskip), "results")
         == Some(host.resultsRoot)
  {
    ConfigLineKeys(host, pid, first, startupTime, interest, nosleepskip);
    KeyLetters();
    FirstLetterSearch(ConfigLines(host, pid, first, startupTime, interest, nosleepskip), "results", 3);
  }

  /** The monitor reads back the analyzer's working directory. */
  lemma ConfigReadsAnalyzer(host: Host, pid: nat, first: bool, startupTime: nat, interest: Option<string>, nosleepskip: bool)
    ensures ConfigValue(ConfigLines(host, pid, first, startupTime, interest, nosleepskip), "analyzer")
         == Some(host.cwd)
  {
    ConfigLineKeys(host, pid, first, startupTime, interest, nosleepskip);
    KeyLetters();
    FirstLetterSearch(ConfigLines(host, pid, first, startupTime, interest, nosleepskip), "analyzer", 4);
  }

  /** The monitor reads back the file of interest, or `None`. */
  lemma ConfigReadsFileOfInterest(host: Host, pid: nat, first: bool, startupTime: nat, interest: Option<string>, nosleepskip: bool)
    ensures ConfigValue(ConfigLines(host, pid, first, startupTime, interest, nosleepskip), "file-of-interest")
         == Some(InterestText(interest))
  {
    ConfigLineKeys(host, pid, first, startupTime, interest, nosleepskip);
    KeyLetters();
    FirstLetterSearch(ConfigLines(host, pid, first, startupTime, interest, nosleepskip), "file-of-interest", 7);
  }

  /** The monitor reads back the name of the shutdown mutex. */
  lemma ConfigReadsShutdownMutex(host: Host, pid: nat, first: bool, startupTime: nat, interest: Option<string>, nosleepskip: bool)
    ensures ConfigValue(ConfigLines(host, pid, first, startupTime, interest, nosleepskip), "shutdown-mutex")
         == Some(host.shutdownMutex)
  {
    ConfigLineKeys(host, pid, first, startupTime, interest, nosleepskip);
    KeyLetters();
    FirstLetterSearch(ConfigLines(host, pid, first, startupTime, interest, nosleepskip), "shutdown-mutex", 8);
  }

  /** The monitor reads back the first-process flag inject meant. */
  lemma ConfigReadsFirstProcess(host: Host, pid: nat, first: bool, startupTime: nat, interest: Option<string>, nosleepskip: bool)
    ensures ConfigValue(ConfigLines(host, pid, first, startupTime, interest, nosleepskip), "first-process")
         == Some(if first then "1" else "0")
  {
    ConfigLineKeys(host, pid, first, startupTime, interest, nosleepskip);
    KeyLetters();
    FirstLetterSearch(ConfigLines(host, pid, first, startupTime, interest, nosleepskip), "first-process", 5);
  }

  /** The monitor reads back the session's startup jitter. */
  lemma ConfigReadsStartupTime(host: Host, pid: nat, first: bool, startupTime: nat, interest: Option<string>, nosleepskip: bool)
    ensures ConfigValue(ConfigLines(host, pid, first, startupTime, interest, nosleepskip), "startup-time")
         == Some(NatToString(startupTime))
  {
    ConfigLineKeys(host, pid, first, startupTime, interest, nosleepskip);
    KeyLetters();
    FirstLetterSearch(ConfigLines(host, pid, first, startupTime, interest, nosleepskip), "startup-time", 6);
  }

  /** The monitor reads back the name of its own process's termination event. */
  lemma ConfigReadsTerminateEvent(host: Host, pid: nat, first: bool, startupTime: nat, interest: Option<string>, nosleepskip: bool)
    ensures ConfigValue(ConfigLines(host, pid, first, startupTime, interest, nosleepskip), "terminate-event")
         == Some(TerminateEventName(host, pid))
  {
    ConfigLineKeys(host, pid, first, startupTime, interest, nosleepskip);
    KeyLetters();
    FirstLetterSearch(ConfigLines(host, pid, first, startupTime, interest, nosleepskip), "terminate-event", 9);
  }

  /** The sleep-skip override is 0 when the caller forces it, else the option's value, else absent. */
  lemma ConfigReadsSleepSkip(host: Host, pid: nat, first: bool, startupTime: nat, interest: Option<string>, nosleepskip: bool)
    ensures ConfigValue(ConfigLines(host, pid, first, startupTime, interest, nosleepskip), "force-sleepskip")
         == (if nosleepskip then Some("0")
             else if "force-sleepskip" in host.options then Some(host.options["force-sleepskip"])
             else None)
  {
    var lines := ConfigLines(host, pid, first, startupTime, interest, nosleepskip);
    ConfigLineKeys(host, pid, first, startupTime, interest, nosleepskip);
    if |lines| == 10 {
      FirstLetterAbsent(lines, "force-sleepskip");
    } else {
      assert lines[10] == lines[10..][0];
      FirstLetterSearch(lines, "force-sleepskip", 10);
    }
  }

  /** The jitter factor: `startup_time` is a whole number of 20-minute steps, between 1 and 30. */
  predicate ValidStartupTime(t: nat) {
    t % 1200000 == 0 && 1200000 <= t <= 36000000
  }

  /** `random.randint(1, 30) * 20 * 60 * 1000` for the drawn value. */
  function StartupTime(draw: int): (t: nat)
    requires 1 <= draw <= 30
    ensures ValidStartupTime(t)
    ensures t / 1200000 == draw
  {
    draw * 20 * 60 * 1000
  }

  /** The session's flag after one inject call that did or did not write a configuration file. */
  function FirstProcessAfter(first: bool, wroteConfig: bool): (r: bool)
    ensures r ==> first
    ensures wroteConfig ==> !r
    ensures !wroteConfig ==> r == first
  {
    first && !wroteConfig
  }

  /**
   * The first-process values written by a session's successive inject calls;
   * `wrote[i]` says whether the i-th call reached the configuration write.
   */
  function FlagsWritten(first: bool, wrote: seq<bool>): seq<bool>
    decreases |wrote|
  {
    if wrote == [] then []
    else (if wrote[0] then [first] else []) + FlagsWritten(FirstProcessAfter(first, wrote[0]), wrote[1..])
  }

  function CountTrue(s: seq<bool>): nat {
    if s == [] then 0 else (if s[0] then 1 else 0) + CountTrue(s[1..])
  }

  /**
   * Over any sequence of injections in one session, one configuration file is
   * written per call that reached the write, and only the first of them (if
   * the session started fresh) says first-process=1.
   */
  lemma {:induction false} FirstProcessOnce(first: bool, wrote: seq<bool>)
    ensures var flags := FlagsWritten(first, wrote);
      && |flags| == CountTrue(wrote)
      && forall i :: 0 <= i < |flags| ==> (flags[i] <==> first && i == 0)
    decreases |wrote|
  {
    if wrote != [] {
      FirstProcessOnce(FirstProcessAfter(first, wrote[0]), wrote[1..]);
    }
  }

  /** Which route inject takes once the configuration is written. */
  datatype Strategy = UseLoader(loader: string) | NoLoader64 | UseNative

  /**
   * A 64-bit target needs loader_x64.exe and has no fallback; a 32-bit one
   * uses loader.exe when present, else injects natively.
   */
  function ChooseStrategy(is64: bool, host: Host): (r: Strategy)
    ensures is64 ==> !r.UseNative?
    ensures r.UseNative? <==> !is64 && !host.pathExists(Loader32Path)
    ensures r.NoLoader64? <==> is64 && !host.pathExists(Loader64Path)
    ensures r.UseLoader? ==> r.loader == (if is64 then Loader64Path else Loader32Path) && host.pathExists(r.loader)
  {
    if is64 then (if host.pathExists(Loader64Path) then UseLoader(Loader64Path) else NoLoader64)
    else if host.pathExists(Loader32Path) then UseLoader(Loader32Path)
    else UseNative
  }

  /** `[loader, "inject", str(pid), str(thread_id), dll]`. */
  function LoaderArgv(loader: string, pid: nat, threadId: nat, dll: string): (r: seq<string>)
    ensures |r| == 5 && r[0] == loader && r[1] == "inject" && r[4] == dll
    ensures r[2] == NatToString(pid) && r[3] == NatToString(threadId)
    ensures DecimalValue(r[2]) == pid && DecimalValue(r[3]) == threadId
  {
    DecimalRoundTrip(pid);
    DecimalRoundTrip(threadId);
    [loader, "inject", NatToString(pid), NatToString(threadId), dll]
  }

  /** How inject reads the loader's exit code. */
  datatype LoaderResult = Injected | InjectedSuspended | LoaderError(code: int)

  function LoaderOutcome(code: int): (r: LoaderResult)
    ensures r.Injected? <==> code == 0
    ensures r.InjectedSuspended? <==> code == 1
    ensures r.LoaderError? ==> r.code == code && code != 0 && code != 1
  {
    if code == 0 then Injected else if code == 1 then InjectedSuspended else LoaderError(code)
  }

  /** old_inject's two techniques and the step at which it can give up. */
  datatype Technique = Apc | RemoteThread
  datatype NativeStep = Allocation | Write | MissingThread | Queue | CreateThread
  datatype NativeResult = NativeInjected(via: Technique) | NativeFailed(at: NativeStep)
}
