/**
 * `SimpleStackTrace`: finds the user's call site in a list of stack frames,
 * skipping frames from files that lie directly in the SimpleTest folder.
 */
module StackTrace {
  import opened Values

  /** One PHP stack frame; `file` and `line` are absent for internal calls. */
  datatype Frame = Frame(file: Option<string>, line: Option<nat>, functionName: string)

  // ---------------------------------------------------------------------
  // Paths
  // ---------------------------------------------------------------------

  /** The index of the last `/` in `s`, if any. */
  function LastSlash(s: string): (r: Option<nat>)
    ensures r.Some? ==> r.value < |s| && s[r.value] == '/' && forall i :: r.value < i < |s| ==> s[i] != '/'
    ensures r.None? ==> forall i :: 0 <= i < |s| ==> s[i] != '/'
    decreases |s|
  {
    if s == [] then None
    else if s[|s| - 1] == '/' then Some(|s| - 1)
    else LastSlash(s[..|s| - 1])
  }

  /**
   * `dirname($path)`: everything before the last `/`; `"."` when there is
   * no `/`, `"/"` when the only `/` leads the path, `""` for `""`.
   */
  function DirName(path: string): (r: string)
    ensures LastSlash(path).Some? && LastSlash(path).value > 0 ==>
              r + "/" <= path && forall i :: |r| < i < |path| ==> path[i] != '/'
    ensures LastSlash(path).None? && path != "" ==> r == "."
  {
    if path == "" then ""
    else match LastSlash(path)
      case None => "."
      case Some(k) => if k == 0 then "/" else path[..k]
  }

  /** The install path with its last character (the trailing `/`) dropped; empty stays empty. */
  function InstallDir(simpleTest: string): string
  {
    if simpleTest == [] then [] else simpleTest[..|simpleTest| - 1]
  }

  /**
   * The frame has a file that starts with the install path and whose
   * directory is exactly the install path.
   */
  predicate LiesWithinSimpleTestFolder(frame: Frame, simpleTest: string)
  {
    frame.file.Some? && InstallDir(simpleTest) <= frame.file.value
      && DirName(frame.file.value) == InstallDir(simpleTest)
  }

  /** `file` names an entry directly inside directory `dir`, not in a subdirectory of it. */
  predicate DirectlyIn(file: string, dir: string)
  {
    dir + "/" <= file && forall i :: |dir| < i < |file| ==> file[i] != '/'
  }

  /**
   * For an ordinary install path, a frame lies within the SimpleTest folder
   * exactly when it has a file that sits directly in that folder; frames
   * without a file or from a subdirectory never do.
   */
  lemma WithinFolderIsDirectChild(frame: Frame, simpleTest: string)
    requires InstallDir(simpleTest) !in {"", "/", "."}
    ensures LiesWithinSimpleTestFolder(frame, simpleTest) <==>
              frame.file.Some? && DirectlyIn(frame.file.value, InstallDir(simpleTest))
  {
    var dir := InstallDir(simpleTest);
    if frame.file.Some? {
      var f := frame.file.value;
      if LiesWithinSimpleTestFolder(frame, simpleTest) {
        var k := LastSlash(f).value;
        assert f[..k] == dir;
        assert (dir + "/") == f[..k + 1];
      }
      if DirectlyIn(f, dir) {
        assert f[|dir|] == (dir + "/")[|dir|];
        assert LastSlash(f) == Some(|dir|);
        assert f[..|dir|] == (dir + "/")[..|dir|];
      }
    }
  }

  // ---------------------------------------------------------------------
  // Prefixes and the scan
  // ---------------------------------------------------------------------

  /** Some prefix in the list is an initial substring of the frame's function name. */
  predicate MatchesPrefix(frame: Frame, prefixes: seq<string>)
  {
    exists p :: p in prefixes && p <= frame.functionName
  }

  /** The empty prefix matches every frame. */
  lemma EmptyPrefixMatchesAll(frame: Frame, prefixes: seq<string>)
    requires "" in prefixes
    ensures MatchesPrefix(frame, prefixes)
  {
  }

  /** A frame `traceMethod` reports: outside the folder, and with a matching function. */
  predicate Qualifies(frame: Frame, prefixes: seq<string>, simpleTest: string)
  {
    !LiesWithinSimpleTestFolder(frame, simpleTest) && MatchesPrefix(frame, prefixes)
  }

  /** The position of the first qualifying frame, in the given order. */
  function FirstQualifying(stack: seq<Frame>, prefixes: seq<string>, simpleTest: string): (r: Option<nat>)
    ensures r.Some? ==> r.value < |stack| && Qualifies(stack[r.value], prefixes, simpleTest)
    ensures r.Some? ==> forall j :: 0 <= j < r.value ==> !Qualifies(stack[j], prefixes, simpleTest)
    ensures r.None? <==> forall j :: 0 <= j < |stack| ==> !Qualifies(stack[j], prefixes, simpleTest)
    decreases |stack|
  {
    if stack == [] then None
    else if Qualifies(stack[0], prefixes, simpleTest) then Some(0)
    else match FirstQualifying(stack[1..], prefixes, simpleTest)
      case None => None
      case Some(k) => Some(k + 1)
  }

  // ---------------------------------------------------------------------
  // Formatting
  // ---------------------------------------------------------------------

  /** PHP's decimal rendering of a non-negative integer. */
  function Decimal(n: nat): (r: string)
    ensures |r| > 0 && forall i :: 0 <= i < |r| ==> '0' <= r[i] <= '9'
    ensures |r| > 1 ==> r[0] != '0'
  {
    if n < 10 then [(('0' as int) + n) as char]
    else Decimal(n / 10) + [(('0' as int) + n % 10) as char]
  }

  /** The value a string of decimal digits denotes. */
  function DecimalValue(s: string): nat
    requires forall i :: 0 <= i < |s| ==> '0' <= s[i] <= '9'
  {
    if s == [] then 0
    else 10 * DecimalValue(s[..|s| - 1]) + (s[|s| - 1] as int - '0' as int)
  }

  /** The rendered line number reads back as that number. */
  lemma {:induction false} DecimalRoundTrip(n: nat)
    ensures DecimalValue(Decimal(n)) == n
  {
    if n >= 10 {
      DecimalRoundTrip(n / 10);
      var r := Decimal(n);
      assert r[..|r| - 1] == Decimal(n / 10);
    }
  }

  /** A missing `file` or `line` concatenates as the empty string. */
  function FileText(frame: Frame): string
  {
    match frame.file
    case Some(f) => f
    case None => ""
  }

  function LineText(frame: Frame): string
  {
    match frame.line
    case Some(n) => Decimal(n)
    case None => ""
  }

  /** The report snippet naming the frame's file and line, e.g. ` at [t.php line 42]`. */
  function Location(frame: Frame): (r: string)
    ensures |r| > 0
  {
    " at [" + FileText(frame) + " line " + LineText(frame) + "]"
  }

  /** What `traceMethod($stack)` returns. */
  function Trace(stack: seq<Frame>, prefixes: seq<string>, simpleTest: string): string
  {
    match FirstQualifying(stack, prefixes, simpleTest)
    case Some(k) => Location(stack[k])
    case None => ""
  }

  /**
   * The trace is empty exactly when no frame qualifies; otherwise it is the
   * location of frame `k` whenever `k` qualifies and no frame before it does.
   */
  lemma TraceResult(stack: seq<Frame>, prefixes: seq<string>, simpleTest: string, k: nat)
    requires k < |stack| && Qualifies(stack[k], prefixes, simpleTest)
    requires forall j :: 0 <= j < k ==> !Qualifies(stack[j], prefixes, simpleTest)
    ensures Trace(stack, prefixes, simpleTest) == Location(stack[k])
  {
  }

  lemma TraceEmpty(stack: seq<Frame>, prefixes: seq<string>, simpleTest: string)
    ensures Trace(stack, prefixes, simpleTest) == "" <==>
              forall j :: 0 <= j < |stack| ==> !Qualifies(stack[j], prefixes, simpleTest)
  {
  }

  /** Frames before the first qualifying one, inside the folder or not matching, do not change the result. */
  lemma TraceSkipsLeadingFrames(skipped: seq<Frame>, rest: seq<Frame>, prefixes: seq<string>, simpleTest: string)
    requires forall j :: 0 <= j < |skipped| ==> !Qualifies(skipped[j], prefixes, simpleTest)
    ensures Trace(skipped + rest, prefixes, simpleTest) == Trace(rest, prefixes, simpleTest)
  {
    var s := skipped + rest;
    var n := |skipped|;
    match FirstQualifying(rest, prefixes, simpleTest)
    case Some(k) =>
      assert s[n + k] == rest[k];
      assert forall j :: 0 <= j < n + k ==> !Qualifies(s[j], prefixes, simpleTest) by {
        forall j | 0 <= j < n + k ensures !Qualifies(s[j], prefixes, simpleTest) {
          if j >= n { assert s[j] == rest[j - n]; }
        }
      }
      TraceResult(s, prefixes, simpleTest, n + k);
    case None =>
      forall j | 0 <= j < |s| ensures !Qualifies(s[j], prefixes, simpleTest) {
        if j >= n { assert s[j] == rest[j - n]; }
      }
  }

  // ---------------------------------------------------------------------
  // The tracer object
  // ---------------------------------------------------------------------

  class SimpleStackTrace {
    const prefixes: seq<string>

    /** `__construct($prefixes)`. */
    constructor (prefixes: seq<string>)
      ensures this.prefixes == prefixes
    {
      this.prefixes := prefixes;
    }

    /** `frameMatchesPrefix($frame)`: a loop over the prefixes with early exit. */
    method FrameMatchesPrefix(frame: Frame) returns (b: bool)
      ensures b <==> exists i :: 0 <= i < |prefixes| && prefixes[i] <= frame.functionName
      ensures b == MatchesPrefix(frame, prefixes)
    {
      for i := 0 to |prefixes|
        invariant forall m :: 0 <= m < i ==> !(prefixes[m] <= frame.functionName)
      {
        if prefixes[i] <= frame.functionName {
          assert prefixes[i] in prefixes;
          return true;
        }
      }
      return false;
    }

    /**
     * `traceMethod($stack)` for a given, explicit frame list, with the
     * install path `SIMPLE_TEST` as `simpleTest`.
     */
    method TraceMethod(stack: seq<Frame>, simpleTest: string) returns (r: string)
      ensures r == Trace(stack, prefixes, simpleTest)
    {
      for i := 0 to |stack|
        invariant forall j :: 0 <= j < i ==> !Qualifies(stack[j], prefixes, simpleTest)
      {
        var frame := stack[i];
        if LiesWithinSimpleTestFolder(frame, simpleTest) {
          continue;
        }
        var matches := FrameMatchesPrefix(frame);
        if matches {
          TraceResult(stack, prefixes, simpleTest, i);
          return Location(frame);
        }
      }
      return "";
    }
  }
}
