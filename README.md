# Cuckoo guest process controller and office_macro signature, in Dafny

This project models two pieces of Cuckoo Sandbox.

The first is the in-guest analyzer's Windows `Process` class. It holds one
target process: its pid, its thread id, the two OS handles and the
suspended flag. It opens and closes the handles on demand. It queries the
image path, the critical flag, the parent pid and the bitness. It starts or
resumes a sample, terminates it, and injects the monitor DLL, either through
the external loaders or natively. Native injection means VirtualAllocEx,
then WriteProcessMemory, then an APC or a remote thread. Before injecting,
it writes the per-process config file. It also streams the whole memory
image to a host-side sink. The class attributes `first_process` and
`startup_time` are shared by every process of one analysis and are modelled
as a `Session` object.

The second is the `office_macro` processing signature. It matches a
document whose static analysis found macro code. It rewords its description
by the number of macros. When some extracted strings contain a phishing
lure, it raises the severity and records each distinct such string once, in
first-seen order.

Every Win32 and NT call is an oracle field of `WinApi.Kernel`. The same
call with the same arguments gets the same answer. The agent's environment
is the `Injection.Host` datatype:
- the working directory;
- the values of `analysis.conf`;
- the constants of `lib/common/constants.py`;
- the answers of `os.path.exists`, `shutil.copy` and `subprocess.call`.

The state of a `Process` is also one value, `ProcState`. The methods that
open or close handles state their new state as a function of the old one:
`Opened`, `OpenedUnlessHeld`, `OpenedIfZero` or `Closed`. The lemmas are
proved about those functions. `Execute` and `Resume` instead state each
field they change directly.

Files:
- `wrappers.dfy`: the `Option` type.
- `text.dfy`: decimal `str()`, string prefix and suffix tests, `ntpath.join`.
- `win_api.dfy`: handles, kernel answers and constants.
- `process_queries.dfy`: how the query answers are decoded, and the command line.
- `injection.dfy`: the DLL choice, `randomize_dll`, the config file, the session flags, the loader.
- `memory_walk.dfy`: the address-space walk of `dump_memory`.
- `process.dfy`: the `Process`, `Session` and `NetlogFile` classes.
- `office_macro.dfy`: the signature.

Quirks of the code that the model keeps:
- `close()` calls CloseHandle on the current-process pseudo-handle too (`-1` is truthy). Only `__del__` spares it.
- `close()` returns `NT_SUCCESS(CloseHandle(..))`, which is `>= 0`. Both BOOL answers, 0 and 1, pass that test. So close reports true whenever it held a handle, even when the close failed (`CloseReportsHeld`).
- `open()` reports true for any known pid or thread id, even when OpenProcess or OpenThread returned NULL.
- `dump_memory` advances by RegionSize only for a dumpable region. A region that is not dumpable, or a failed query, advances one page.
- Native injection allocates `len(dll) + 1` bytes. Nothing frees that allocation.
- After `close()` the process handle is `None`. `terminate`, `set_terminate_event` and `is_64bit` test `h_process == 0`, which `None` fails, so they do not reopen the handle. They then pass a NULL handle (`ClosedHandleNotReopened`).

## Model

| member | source | states |
|---|---|---|
| Text.NatToString | analyzer/windows/lib/api/process.py:415 | `str(n)`/`%s` of a pid or time: at least one character, all decimal digits, no leading zero |
| Text.DecimalRoundTrip | analyzer/windows/lib/api/process.py:428 | the decimal text written for a number reads back as that number |
| Text.NatToStringInjective | analyzer/windows/lib/api/process.py:415 | different numbers get different decimal texts |
| Text.PathJoin | analyzer/windows/lib/api/process.py:35 | `os.path.join(a, b)` ends with `b`; it is `b` when `b` is absolute or `a` is empty, `a + b` when `a` ends in a separator, and `a + "\\" + b` otherwise |
| Injection.RandomDllPath | analyzer/windows/lib/api/process.py:35 | the copy's path ends in `<random>.dll`, hence in `.dll`, and is exactly `os.path.join(cwd, "dll")`, a backslash and `<random>.dll` when the random name is relative |
| Injection.RandomizeDll | analyzer/windows/lib/api/process.py:30-41 | the randomly named copy under `<cwd>\dll` when the copy succeeds, the original path when it fails |
| Injection.MonitorDll | analyzer/windows/lib/api/process.py:401-406 | the caller's DLL unless absent or empty, else `cuckoomon_x64.dll` for a 64-bit target and `cuckoomon.dll` otherwise |
| Injection.ConfigPath | analyzer/windows/lib/api/process.py:415 | `C:\<pid>.ini`: prefix, suffix, and the pid's decimal text in between |
| Injection.ConfigPathInjective | analyzer/windows/lib/api/process.py:415 | two pids never share a config file |
| Injection.Entry | analyzer/windows/lib/api/process.py:422-435 | a `key=value` line starts with `key=` and holds the value after it |
| Injection.InterestText | analyzer/windows/lib/api/process.py:429 | `format(interest)`: the file of interest itself, or `None` when there is none |
| Injection.TerminateEventName | analyzer/windows/lib/api/process.py:284 | the event name (also written to the config file at line 431) starts with TERMINATE_EVENT and the rest reads back as the pid |
| Injection.SleepSkipLines | analyzer/windows/lib/api/process.py:432-435 | at most one line; present exactly when forced or when the option is set; it starts with `force-sleepskip=` and carries `0` when forced, else the option's value |
| Injection.FixedValues | analyzer/windows/lib/api/process.py:422-431 | one value per fixed key; the read-back lemmas below state which value each key gets |
| Injection.ConfigReadsHostIp | analyzer/windows/lib/api/process.py:422 | reading `host-ip` back gives the result server's address |
| Injection.ConfigReadsHostPort | analyzer/windows/lib/api/process.py:423 | reading `host-port` back gives the result server's port, although `host-ip` shares its first letters |
| Injection.ConfigReadsPipe | analyzer/windows/lib/api/process.py:424 | reading `pipe` back gives the analyzer's pipe name |
| Injection.ConfigReadsResults | analyzer/windows/lib/api/process.py:425 | reading `results` back gives the results root |
| Injection.ConfigReadsAnalyzer | analyzer/windows/lib/api/process.py:426 | reading `analyzer` back gives the analyzer's working directory |
| Injection.ConfigReadsFileOfInterest | analyzer/windows/lib/api/process.py:429 | reading `file-of-interest` back gives the file of interest, or `None` when there is none |
| Injection.ConfigReadsShutdownMutex | analyzer/windows/lib/api/process.py:430 | reading `shutdown-mutex` back gives the shutdown mutex's name |
| Injection.ConfigLines | analyzer/windows/lib/api/process.py:422-435 | ten fixed lines, then exactly the optional sleep-skip lines |
| Injection.ConfigLineKeys | analyzer/windows/lib/api/process.py:422-435 | the file has ten fixed `key=` lines in order, then the optional sleep-skip line |
| Injection.ConfigReadsFirstProcess | analyzer/windows/lib/api/process.py:420-427 | reading `first-process` back gives `1` exactly when the session's flag was set |
| Injection.ConfigReadsStartupTime | analyzer/windows/lib/api/process.py:428 | reading `startup-time` back gives the session's jitter |
| Injection.ConfigReadsTerminateEvent | analyzer/windows/lib/api/process.py:431 | reading `terminate-event` back gives TERMINATE_EVENT followed by the pid |
| Injection.ConfigReadsSleepSkip | analyzer/windows/lib/api/process.py:432-435 | `force-sleepskip` is `0` when forced, else the option's value when set, else absent |
| Injection.StartupTime | analyzer/windows/lib/api/process.py:46-49 | the jitter is between 1 and 30 whole 20-minute steps, in milliseconds, and the step count is the drawn value |
| Injection.FirstProcessAfter | analyzer/windows/lib/api/process.py:437-438 | the flag only ever goes from set to clear: a written config clears it, no write keeps it |
| Injection.FirstProcessOnce | analyzer/windows/lib/api/process.py:420-438 | over any run of injections in one session, one flag per config written, and only the first says first-process=1 |
| Injection.ChooseStrategy | analyzer/windows/lib/api/process.py:445-471 | a 64-bit target uses loader_x64.exe or fails, with no native fallback; a 32-bit target uses loader.exe when present, else native injection |
| Injection.LoaderArgv | analyzer/windows/lib/api/process.py:447 | the loader gets five arguments: its path, `inject`, the pid and the thread id in decimal (reading back as those numbers), and the DLL path; line 461 builds the same list |
| Injection.LoaderOutcome | analyzer/windows/lib/api/process.py:447-469 | exit code 0 is success, 1 is "injected into a suspended process", anything else is an error |
| ProcessQueries.FindZeroPair | analyzer/windows/lib/api/process.py:149 | the first offset of two zero bytes, or -1 when there is none |
| ProcessQueries.ImagePathBytes | analyzer/windows/lib/api/process.py:148-149 | the bytes after the 8-byte header, up to and including the first zero of the first zero pair; empty when there is no pair |
| ProcessQueries.FilePath | analyzer/windows/lib/api/process.py:140-154 | the empty string when the query fails, reports at most 8 bytes, or returns no NUL pair after the header; otherwise the decode of the bytes up to the pair |
| ProcessQueries.Critical | analyzer/windows/lib/api/process.py:173-176 | critical exactly when the query succeeds and the flag is nonzero |
| ProcessQueries.ParentPid | analyzer/windows/lib/api/process.py:191-200 | the sixth field exactly when the query succeeds and fills all 24 bytes, else None |
| ProcessQueries.Is64Bit | analyzer/windows/lib/api/process.py:315-323 | 64-bit exactly when IsWow64Process succeeds, says "not WOW64", and the machine name ends in `64`; false when the call raises |
| ProcessQueries.CommandLine | analyzer/windows/lib/api/process.py:222-224 | the quoted path, a space, then the arguments when given |
| ProcessQueries.CommandLineShape | analyzer/windows/lib/api/process.py:222-224 | the command line is a quote, the path, a quote, a space, then the arguments |
| ProcessQueries.CommandLineRoundTrip | analyzer/windows/lib/api/process.py:222-224 | for a path without quotes, the command line splits back into the path and the arguments |
| ProcessQueries.CreationFlags | analyzer/windows/lib/api/process.py:226-229 | the CREATE_NEW_CONSOLE bit is always set, the CREATE_SUSPENDED bit exactly when suspended is asked for, and no other bit |
| WinProcess.Opened | analyzer/windows/lib/api/process.py:75-94 | open only fills missing handles: the pseudo-handle for the agent's own pid, OpenProcess for another pid, OpenThread for a thread id; held handles and ids are kept |
| WinProcess.OpenIdempotent | analyzer/windows/lib/api/process.py:75-94 | opening twice is opening once. This rests on `Kernel` giving fixed answers: after a failed `OpenProcess` or `OpenThread` the handle is 0, which passes `not h_process` (lines 80, 89), so the code calls it again and a live system could then succeed |
| WinProcess.OpenedUnlessHeld | analyzer/windows/lib/api/process.py:117-118 | the `not h_process` guard (also lines 129, 166, 180): no change when a handle is held, otherwise `Opened`; for a known pid a handle value is then present |
| WinProcess.OpenedIfZero | analyzer/windows/lib/api/process.py:281-282 | the `h_process == 0` guard (also lines 296, 312): `Opened` only for a zero handle, no change otherwise, which includes a cleared handle |
| WinProcess.ClosedHandleNotReopened | analyzer/windows/lib/api/process.py:96-123 | after close, the `h_process == 0` guard (lines 281, 296, 312) does not reopen and a NULL handle is passed on; the `not h_process` guard does reopen |
| WinProcess.Closed | analyzer/windows/lib/api/process.py:96-111 | close sets every held handle to `None` (lines 105, 109), keeps a 0 or `None` handle as it was, and leaves the ids and the suspended flag alone |
| WinProcess.CloseThenNotReopened | analyzer/windows/lib/api/process.py:96-111 | after closing a held process handle, the `h_process == 0` guard (lines 281, 296, 312) keeps it closed and a NULL handle is passed on, while `open()` reopens it for a nonzero pid |
| WinProcess.CloseTwice | analyzer/windows/lib/api/process.py:96-111 | a second close changes nothing and reports false |
| WinProcess.CloseResult | analyzer/windows/lib/api/process.py:100-111 | close reports true only when it held a handle; the thread handle's CloseHandle decides when one is held, else the process handle's |
| WinProcess.CloseReportsHeld | analyzer/windows/lib/api/process.py:100-111 | with a BOOL-returning CloseHandle, close reports true exactly when it had a handle, whether or not the close succeeded |
| WinProcess.ReleasedAtDestruction | analyzer/windows/lib/api/process.py:63-68 | `__del__` closes the held thread handle, and the held process handle unless it is the pseudo-handle |
| WinProcess.NoDoubleClose | analyzer/windows/lib/api/process.py:63-111 | after open and close, destruction has no handle left to close |
| WinProcess.DumpPath | analyzer/windows/lib/api/process.py:499 | the dump sink is `memory\<pid>.dmp` |
| WinProcess.Delivered | analyzer/windows/lib/api/process.py:445-471 | a 64-bit target without its loader fails; with a loader, success is exit code 0; without the 32-bit loader, success is the native injection getting through |
| WinProcess.Session.constructor | analyzer/windows/lib/api/process.py:45-49 | a session starts as the first process, with a valid startup jitter |
| WinProcess.NetlogFile.SendAll | analyzer/windows/lib/api/process.py:520 | the chunk is appended to what the sink received |
| WinProcess.NetlogFile.Close | analyzer/windows/lib/api/process.py:525 | the sink is closed and its content is kept |
| WinProcess.StreamRegions | analyzer/windows/lib/api/process.py:488-523 | the loop sends exactly the memory image from the minimum to the maximum application address |
| WinProcess.StreamRegion | analyzer/windows/lib/api/process.py:500-523 | one iteration: the chunk at the cursor is sent when there is one, nothing otherwise, and the cursor moves to `Advance` of itself |
| WinProcess.Process.constructor | analyzer/windows/lib/api/process.py:51-61 | the fields are the given pid, handles, thread id and flag |
| WinProcess.Process.Open | analyzer/windows/lib/api/process.py:75-94 | the new state is `Opened` of the old one, and the result says whether a pid or thread id is known |
| WinProcess.Process.Close | analyzer/windows/lib/api/process.py:96-111 | the new state is `Closed` of the old one, and the result is the NT_SUCCESS of the last CloseHandle, or false when there was none |
| WinProcess.Process.ExitCode | analyzer/windows/lib/api/process.py:113-123 | reopens when no handle is held, then returns GetExitCodeProcess of the handle |
| WinProcess.Process.IsAlive | analyzer/windows/lib/api/process.py:156-160 | alive exactly when the exit code is STILL_ACTIVE (259) |
| WinProcess.Process.GetFilepath | analyzer/windows/lib/api/process.py:125-154 | reopens when no handle is held, then decodes the image-file-name query; the empty path when the query fails or holds no NUL pair |
| WinProcess.Process.IsCritical | analyzer/windows/lib/api/process.py:162-176 | reopens when no handle is held, then reads the break-on-termination query |
| WinProcess.Process.GetParentPid | analyzer/windows/lib/api/process.py:178-200 | reopens when no handle is held, then reads the basic-information query |
| WinProcess.Process.Execute | analyzer/windows/lib/api/process.py:202-254 | fails without change on a path that cannot be executed; otherwise calls CreateProcessA with the command line and flags, raises `suspended` when asked even if creation fails, and takes the new ids and handles only on success |
| WinProcess.Process.Resume | analyzer/windows/lib/api/process.py:256-276 | succeeds exactly when the process was suspended, holds a thread handle and ResumeThread does not return -1; the flag drops only then |
| WinProcess.Process.SetTerminateEvent | analyzer/windows/lib/api/process.py:278-290 | reopens only on a zero handle; the event is signalled exactly when the event TERMINATE_EVENT+pid can be opened |
| WinProcess.Process.Terminate | analyzer/windows/lib/api/process.py:292-306 | reopens only on a zero handle, and succeeds exactly when TerminateProcess with exit code 1 succeeds |
| WinProcess.Process.Is64Bit | analyzer/windows/lib/api/process.py:308-323 | reopens only on a zero handle, then applies the WOW64 and machine test |
| WinProcess.Process.OldInject | analyzer/windows/lib/api/process.py:325-380 | stops at the first failing step (allocation, write, missing thread, APC, remote thread); queues an APC exactly when asked to or when suspended, else starts a remote thread |
| WinProcess.Process.CheckTarget | analyzer/windows/lib/api/process.py:396-413 | the liveness check reopens a missing handle; only a live process has its bitness read, which picks the default DLL; it proceeds exactly when the randomized or original DLL path is non-empty and exists |
| WinProcess.WriteConfig | analyzer/windows/lib/api/process.py:415-438 | the file `C:\<pid>.ini` holds the session's first-process flag as it was before the call, and the flag is then cleared |
| WinProcess.Process.Deliver | analyzer/windows/lib/api/process.py:440-471 | the route is the one for the target's bitness; success is loader exit code 0 or a native injection that got through; a 64-bit target without its loader always fails |
| WinProcess.Process.Inject | analyzer/windows/lib/api/process.py:382-471 | nothing is written for an unknown pid, a dead process or a missing DLL; otherwise the config file `C:\<pid>.ini` with the session's flag and jitter is written, the flag is consumed, and the chosen loader's or native injection's result is returned |
| WinProcess.Process.DumpMemory | analyzer/windows/lib/api/process.py:473-529 | fails for an unknown pid or a dead process; otherwise a fresh sink at `memory\<pid>.dmp` receives exactly the memory image and is closed |
| MemoryWalk.Advance | analyzer/windows/lib/api/process.py:505-523 | the cursor moves by RegionSize past a dumpable region, read or not, and by one page otherwise; it always moves forward |
| MemoryWalk.DumpableMasks | analyzer/windows/lib/api/process.py:512-513 | a region is dumped exactly when it is committed and of image, mapped or private type |
| MemoryWalk.Buffer | analyzer/windows/lib/api/process.py:514-520 | the sent buffer is RegionSize bytes long: what was read, then zeros |
| MemoryWalk.Chunk | analyzer/windows/lib/api/process.py:505-520 | a chunk is sent exactly when the query succeeds, the region is committed and of image, mapped or private type, and the read succeeds; it is a buffer of `RegionSize` bytes holding what `ReadProcessMemory` read |
| MemoryWalk.Streamed | analyzer/windows/lib/api/process.py:501-523 | a cursor is streamed exactly when a chunk is sent at it |
| MemoryWalk.Cursors | analyzer/windows/lib/api/process.py:491-501 | the walk queries nothing when the minimum is not below the maximum, and otherwise starts at the minimum |
| MemoryWalk.Image | analyzer/windows/lib/api/process.py:501-523 | at most one chunk is sent per queried cursor |
| MemoryWalk.CursorsWalk | analyzer/windows/lib/api/process.py:491-523 | the walk starts at the minimum address, increases strictly by Advance, stays below the maximum, and ends when the next step reaches it |
| MemoryWalk.StreamedAscending | analyzer/windows/lib/api/process.py:501-523 | the walk sends its chunks in ascending address order |
| MemoryWalk.ImageIsStreamedChunks | analyzer/windows/lib/api/process.py:501-523 | the image is the chunks of the streamed cursors, in walk order |
| MemoryWalk.DumpedRegions | analyzer/windows/lib/api/process.py:501-525 | the image is exactly the chunks at the streamed cursors, which ascend and lie between the minimum and the maximum address |
| OfficeMacro.MacroCode | modules/signatures/office_macro.py:28-30 | the Code collection exactly when `static`, `Macro` and `Code` are all present |
| OfficeMacro.Lower | modules/signatures/office_macro.py:45 | `str.lower()` character by character |
| OfficeMacro.Contains | modules/signatures/office_macro.py:45 | `lure in s` exactly when the lure occurs at some offset |
| OfficeMacro.LuresSpelledOut | modules/signatures/office_macro.py:37-45 | a string carries a lure exactly when its lowercase form contains `bank account`, `enable content`, `tools > macro` or `macros must be enabled` |
| OfficeMacro.ScannedStrings | modules/signatures/office_macro.py:36 | the strings are scanned only on a match with a `strings` entry; otherwise there is nothing to scan |
| OfficeMacro.Positives | modules/signatures/office_macro.py:42-47 | no more positives than strings (membership, distinctness and order are the three lemmas below) |
| OfficeMacro.PositivesMembers | modules/signatures/office_macro.py:42-47 | a string is a positive exactly when it is among the strings and its lowercase form contains a lure |
| OfficeMacro.PositivesDistinct | modules/signatures/office_macro.py:46-47 | no positive is recorded twice |
| OfficeMacro.PositivesFirstSeenOrder | modules/signatures/office_macro.py:43-47 | the positives appear in the order of their first occurrence among the strings |
| OfficeMacro.MacroDescription | modules/signatures/office_macro.py:32-34 | "The office file has N macros." for more than one macro, the old description otherwise |
| OfficeMacro.LureEntries | modules/signatures/office_macro.py:52-53 | one `{"Lure": p}` record per positive, in order |
| OfficeMacro.ScanString | modules/signatures/office_macro.py:44-47 | one string is appended exactly when some lure is in its lowercase form and it is not yet a positive |
| OfficeMacro.CollectPositives | modules/signatures/office_macro.py:42-47 | the loop over the strings produces the positives |
| OfficeMacro.Signature.constructor | modules/signatures/office_macro.py:18-24 | severity 2, the single-macro description, no data |
| OfficeMacro.Signature.Run | modules/signatures/office_macro.py:26-55 | matches exactly when macro code is present; with no match nothing changes; on a match the description is reworded by the macro count, and when a lure string is present the severity becomes 3, the phishing sentence is appended and one record per positive is added |

## Left out

- Logging, the sleeps (`Sleep(2000)` before resume, `Sleep(500)` after the event), and SetEvent and CloseHandle on the event handle. None of them changes the process state or the results.
- `Config("analysis.conf")` loading: its values arrive through `Host`. `lib/common/constants.py` is not part of this model, so PIPE, PATHS, SHUTDOWN_MUTEX and TERMINATE_EVENT are `Host` fields too.
- File writes: the config file is returned as a `ConfigFile` value (path and lines) rather than written to disk.
- Creating the `PATHS["memory"]/<time>` directory in `dump_memory`: the clock and `os.makedirs` are left out, because the directory is created but never used.
- The NetlogFile socket: the sink is a recorded list of chunks, and the connection itself is left out.
- `randomize_dll`: `random_string(6)` is the input `Host.randomName`.
- `startup_time`: the `random.randint(1, 30)` draw is the constructor parameter of `Session`.
- The Win32 and NT calls and `platform.machine()` are oracle fields of `Kernel`. The same arguments always give the same answer. So a call the code repeats collapses into one: a second `open()` after a failed `OpenProcess` or `OpenThread` (process.py lines 80 and 89 let a 0 handle through), and the second `OpenProcess` of `terminate` (lines 296-297, then 281-282), get the first answer again.
- `get_system_info` is left out as a method. Its answer is `Kernel.systemInfo`, which the dump reads once.
- ProcessQueries.FilePath: the UTF-16 decode with `errors="ignore"` is an opaque parameter `decode`, so the `except` branch that returns "" cannot arise in the model. `decode` is applied only to a non-empty byte string; an empty one (no NUL pair after the header) gives "" directly, as decoding no bytes does in Python.
- OfficeMacro.Lower: Python 2 `str.lower()` is modelled on ASCII letters only. Locale-dependent case mapping is left out.
- ProcessQueries.Is64Bit: the `except: pass` path is modelled as an `Option` answer of IsWow64Process, with None for a raised exception.
- Text.PathJoin: `ntpath.join` is reduced to separator and absolute-path handling. Drive-relative paths are not modelled. When the first part has a drive and the second is rooted, Python keeps the drive (`join("C:\\x", "\\y")` is `C:\y`) but the model returns the second part alone (`\y`). No call site joins such parts. The joins at line 35 and in the dump path take a random file name and `<pid>.dmp` as second parts. Line 408 joins the caller's DLL name, which may be absolute, but its first part is `"dll"`, which has no drive.
- WinProcess.Process.DumpMemory: it requires a positive page size and a positive RegionSize for every dumpable region (`MemoryWalk.Progressing`). Without these the source's loop never ends.
- WinProcess.Process.Inject: the `with open(...)` write of the config file cannot fail in the model.
- OldInject: GetModuleHandleA and GetProcAddress for LoadLibraryA are taken to succeed. CloseHandle on the remote thread is left out, and so is the allocation that is never freed.
