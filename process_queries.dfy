/**
 * The decision rules of the process controller that only interpret what a
 * query returned: the image-path buffer, the basic-information size check,
 * the critical flag, the WOW64 bitness rule and the command line given to
 * CreateProcessA.
 */
module ProcessQueries {
  import opened Wrappers
  import opened Text
  import opened WinApi

  /** Bytes `j` and `j + 1` of `b` are both NUL. */
  predicate ZeroPairAt(b: seq<byte>, j: int) {
    0 <= j < |b| - 1 && b[j] == 0 && b[j + 1] == 0
  }

  /** Python's `b.find('\0\0')`: the first offset of a NUL pair, at any alignment, or -1. */
  function FindZeroPair(b: seq<byte>): (r: int)
    ensures r == -1 || ZeroPairAt(b, r)
    ensures forall j :: 0 <= j < r || (r == -1 && 0 <= j) ==> !ZeroPairAt(b, j)
  {
    if |b| < 2 then -1
    else if b[0] == 0 && b[1] == 0 then 0
    else
      var t := FindZeroPair(b[1..]);
      assert forall j :: 1 <= j ==> (ZeroPairAt(b, j) <==> ZeroPairAt(b[1..], j - 1));
      if t < 0 then -1 else t + 1
  }

  /** Python's `s[n:]`, which is empty when `s` is shorter than `n`. */
  function Drop(s: seq<byte>, n: nat): seq<byte> {
    if |s| <= n then [] else s[n..]
  }

  /**
   * The bytes get_filepath decodes: after the 8-byte header, everything up
   * to and including the first byte of the first NUL pair.
   */
  function ImagePathBytes(buffer: seq<byte>): (r: seq<byte>)
    ensures var tail := Drop(buffer, 8);
      && r <= tail
      && (r == [] <==> forall j :: 0 <= j ==> !ZeroPairAt(tail, j))
      && (r != [] ==> ZeroPairAt(tail, |r| - 1) && forall j :: 0 <= j < |r| - 1 ==> !ZeroPairAt(tail, j))
  {
    var tail := Drop(buffer, 8);
    tail[..FindZeroPair(tail) + 1]
  }

  /**
   * get_filepath's result given the class-27 query: the decoded path when
   * the query succeeded and returned more than the header, "" otherwise.
   * `decode` is the UTF-16 decode of a non-empty byte string; an empty one
   * decodes to "", which is what a buffer without a NUL pair yields.
   */
  function FilePath(q: ImageNameInfo, decode: seq<byte> -> string): (r: string)
    ensures !(q.status >= 0 && q.size > 8) ==> r == ""
    ensures q.status >= 0 && q.size > 8 && (forall j :: 0 <= j ==> !ZeroPairAt(Drop(q.buffer, 8), j)) ==> r == ""
    ensures q.status >= 0 && q.size > 8 && ImagePathBytes(q.buffer) != [] ==> r == decode(ImagePathBytes(q.buffer))
  {
    if q.status >= 0 && q.size > 8 then
      var bytes := ImagePathBytes(q.buffer);
      if bytes == [] then "" else decode(bytes)
    else ""
  }

  /** is_critical: the class-29 query succeeded and reported a non-zero flag. */
  function Critical(q: FlagInfo): (r: bool)
    ensures r <==> q.status >= 0 && q.value != 0
  {
    q.status >= 0 && q.value != 0
  }

  /**
   * get_parent_pid: the inherited-from field, trusted only when the query
   * succeeded and filled exactly the six ints it was given.
   */
  function ParentPid(q: BasicInfo): (r: Option<int>)
    ensures r.Some? <==> q.status >= 0 && q.size == BasicInformationSize
    ensures r.Some? ==> r.value == q.info.inheritedFromUniqueProcessId
  {
    if q.status >= 0 && q.size == BasicInformationSize then Some(q.info.inheritedFromUniqueProcessId) else None
  }

  /**
   * is_64bit: a process is 64-bit only when IsWow64Process succeeded, says
   * "not under WOW64", and the host machine name ends in "64"; a raised
   * query reads as 32-bit.
   */
  function Is64Bit(answer: Option<Wow64Info>, machine: string): (r: bool)
    ensures r ==> answer.Some? && answer.value.ret != 0 && answer.value.wow64 == 0
    ensures r ==> EndsWith(machine, "64")
    ensures answer.Some? && answer.value.ret != 0 && answer.value.wow64 == 0 && EndsWith(machine, "64") ==> r
  {
    match answer
    case None => false
    case Some(a) => a.ret != 0 && a.wow64 == 0 && EndsWith(machine, "64")
  }

  /** The text `if args:` lets through: a non-empty argument string. */
  function ArgText(args: Option<string>): string {
    if args.Some? && args.value != "" then args.value else ""
  }

  /** execute's command line: the quoted path, a space, then the arguments if any. */
  function CommandLine(path: string, args: Option<string>): (r: string)
    ensures |r| == |path| + 3 + |ArgText(args)|
    ensures StartsWith(r, "\"" + path + "\" ")
  {
    "\"" + path + "\" " + ArgText(args)
  }

  /** Where the quotes, the space and the arguments sit in a command line. */
  lemma CommandLineShape(path: string, args: Option<string>)
    ensures var cmd := CommandLine(path, args);
      && cmd[0] == '"' && cmd[1..][..|path|] == path && cmd[1..][|path|] == '"'
      && cmd[|path| + 2] == ' ' && cmd[|path| + 3..] == ArgText(args)
  {
    var cmd := CommandLine(path, args);
    assert cmd == "\"" + (path + ("\" " + ArgText(args)));
    assert cmd[1..] == path + ("\" " + ArgText(args));
  }

  /** The program and the arguments can be read back from the command line, as long as the path has no quote. */
  lemma CommandLineRoundTrip(path: string, args: Option<string>)
    requires '"' !in path
    ensures ParseCommandLine(CommandLine(path, args)) == Some((path, ArgText(args)))
  {
    var cmd := CommandLine(path, args);
    CommandLineShape(path, args);
    IndexOfFirst(cmd[1..], '"', |path|);
    assert cmd[1..|path| + 1] == cmd[1..][..|path|];
  }

  /**
   * A reader of command lines that start with a quoted program name: the
   * name, and the text after the quote and one space.
   */
  function ParseCommandLine(cmd: string): Option<(string, string)> {
    if |cmd| == 0 || cmd[0] != '"' then None
    else
      var close := IndexOf(cmd[1..], '"');
      if close < 0 || close + 2 >= |cmd| || cmd[close + 2] != ' ' then None
      else Some((cmd[1..close + 1], cmd[close + 3..]))
  }

  /** CREATE_NEW_CONSOLE, plus CREATE_SUSPENDED when asked. */
  function CreationFlags(suspended: bool): (r: int)
    ensures 0 <= r < 0x20
    ensures (r / CREATE_NEW_CONSOLE) % 2 == 1
    ensures (r / CREATE_SUSPENDED) % 2 == 1 <==> suspended
    ensures r % CREATE_SUSPENDED == 0 && (r / (CREATE_SUSPENDED * 2)) % 2 == 0
  {
    if suspended then CREATE_NEW_CONSOLE + CREATE_SUSPENDED else CREATE_NEW_CONSOLE
  }
}
