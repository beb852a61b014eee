# SimpleTest global state, test context and stack tracer, in Dafny

This project models `simpletest.php` of the SimpleTest PHP unit-testing
framework. That file holds three pieces:

- **The `SimpleTest` registry** (`registry.dfy`, module `SimpleTest`). It is
  one keyed record of global options. It holds a case-insensitive ignore list
  of test-case classes and the rule that the parents of ignored classes are
  ignored too. It holds an append-only pool of "preferred" objects, looked up
  from newest to oldest. It also holds plain proxy, parser and mock-base-class
  settings, each with fixed defaults. The record is the class `Registry`, with
  one field per key. Its constructor is `getDefaults()`.
- **`SimpleTestContext`** (`context.dfy`, module `TestContext`). It holds the
  active test, the active reporter and a cache of run-scoped singleton
  resources. The cache is emptied whenever the test or the reporter changes.
- **`SimpleStackTrace`** (`stack_trace.dfy`, module `StackTrace`). It scans a
  list of stack frames outermost first. It skips frames whose file lies
  directly in the SimpleTest folder. It reports the first remaining frame
  whose function name starts with one of the configured prefixes, as
  `" at [file line N]"`, or `""` when there is none.

`values.dfy` holds the shared `Option` (PHP's `false`/`null` "not set") and
`Obj`, an opaque PHP object given by its class name and an identity.

Foreign pieces become parameters:

- PHP's `is_a($object, $class)` is the function `isA`.
- `SimpleReflection::getParent()` is the function `parentOf`. Its `false`
  result is `None`. A PHP class name is never `""` or `"0"`, so the source's
  `if ($parent)` truthiness test is the same as `Some?`.
- The install path constant `SIMPLE_TEST` is the parameter `simpleTest`.
- `new $resource()` is an `Obj` of class `resource` whose identity comes from
  a counter in the context. The reporters `HtmlReporter`, `TextReporter` and
  `XmlReporter` are three constant objects.

`strtolower` is modelled as ASCII lower-casing, which is what it does in the C
locale. `dirname` is "everything before the last `/`". The cases PHP
special-cases are kept: `"."` when there is no `/`, `"/"` when the only `/` is
the first character, and `""` for `""`.

The doc comment of `prefer` (simpletest.php:74) says that instances of the
same class are overwritten. The code (simpletest.php:81) appends instead, and
the model follows the code: `Prefer` keeps every earlier entry, and lookups
prefer the newest match.

Each setter names exactly the fields it writes in its `modifies` clause (for
example `modifies this`parsers`). So every other field is unchanged by the
frame alone.

## Model

| member | source | states |
|---|---|---|
| SimpleTest.Lower | simpletest.php:42 | `strtolower` keeps the length, lower-cases each character on its own, and leaves no capital letter |
| SimpleTest.LowerIdempotent | simpletest.php:42 | lower-casing an already lower-cased class name changes nothing, so the stored keys are fixed points |
| SimpleTest.Registry.constructor | simpletest.php:225-235 | a fresh registry has an empty ignore list, parsers and all three proxy fields unset, mock base class `"SimpleMock"`, and the pool exactly `[HtmlReporter, TextReporter, XmlReporter]` |
| SimpleTest.Registry.IsIgnored | simpletest.php:117-121 | on a valid registry, a name is ignored exactly when some stored name equals it up to ASCII case |
| SimpleTest.Registry.Ignore | simpletest.php:39-43 | adds the lower-cased name and nothing else, so afterwards `IsIgnored(d)` holds exactly for the names ignored before plus every `d` with the same lower-cased form |
| SimpleTest.IgnoreTwice | simpletest.php:39-43 | ignoring the same class twice leaves the same list as ignoring it once |
| SimpleTest.Registry.IgnoreParentsIfIgnored | simpletest.php:58-69 | the foreach loop leaves the ignore list equal to `Propagated` of the old list over the classes, in order, and keeps every key lower-cased |
| SimpleTest.ParentStep | simpletest.php:61-66 | one loop iteration: an ignored class with a parent adds the parent's lower-cased name, any other class adds nothing; its properties are proved through `Propagated` |
| SimpleTest.Propagated | simpletest.php:58-69 | the ignore list only grows during propagation |
| SimpleTest.PropagatedPrefixMonotone | simpletest.php:60-68 | the list seen by a later element contains the list seen by an earlier one |
| SimpleTest.PropagatedAtTurn | simpletest.php:60-68 | an element that is ignored when the loop reaches it, and has a parent, leaves that parent ignored at the end |
| SimpleTest.PropagatedIgnoresParents | simpletest.php:58-69 | every listed class that was ignored before the call and has a parent has that parent ignored after it |
| SimpleTest.PropagatedChain | simpletest.php:58-69 | when an earlier ignored element's parent is a later element, that later element becomes ignored during the call and its own parent is ignored too |
| SimpleTest.PropagatedOnlyParents | simpletest.php:58-69 | every name the call adds is the lower-cased parent of an element that was ignored when the loop reached it: one parent step per element, nothing transitive, nothing else |
| SimpleTest.PropagatedAllLower | simpletest.php:42 | propagation keeps every stored name lower-cased |
| SimpleTest.Registry.Prefer | simpletest.php:78-82 | appends the object at the end of the pool and leaves the earlier entries unchanged |
| SimpleTest.SingleClassIsOneElementList | simpletest.php:94-96 | a lookup with a single class name finds the same entry as a lookup with the one-element list holding that name |
| SimpleTest.LastMatchIndex | simpletest.php:98-105 | gives the highest pool position whose object `is_a` one of the classes, with no match above it; gives `None` exactly when no entry matches |
| SimpleTest.Registry.Preferred | simpletest.php:92-106 | the backwards scan with its nested class loop returns the newest matching pool entry, or `None` for PHP `null` |
| SimpleTest.PreferredFindsNewest | simpletest.php:78-106 | after `prefer(o)`, any lookup that `o` satisfies returns `o` |
| SimpleTest.PreferredSkipsNonMatching | simpletest.php:78-106 | after `prefer(o)`, a lookup that `o` does not satisfy returns what it returned before |
| SimpleTest.DefaultPoolPrefersXml | simpletest.php:98-105 | on the default pool, the XML reporter is found whenever it matches, even when the HTML and text reporters match too |
| SimpleTest.DefaultPoolPrefersText | simpletest.php:98-105 | on the default pool, the text reporter is found when it matches and the XML reporter does not |
| SimpleTest.PoolWithDefaultsFindsReporter | simpletest.php:98-105 | a pool that still starts with the three default reporters, as `Valid` keeps it, never returns `null` for a lookup one of those reporters satisfies |
| SimpleTest.Registry.UseProxy | simpletest.php:132-168 | the three proxy getters return the proxy, username and password given, with username and password defaulting to unset |
| SimpleTest.Registry.GetDefaultProxy | simpletest.php:144-148 | reads the stored proxy; `UseProxy` proves the round trip |
| SimpleTest.Registry.GetDefaultProxyUsername | simpletest.php:154-158 | reads the stored proxy username; `UseProxy` proves the round trip |
| SimpleTest.Registry.GetDefaultProxyPassword | simpletest.php:164-168 | reads the stored proxy password; `UseProxy` proves the round trip |
| SimpleTest.Registry.GetParsers | simpletest.php:176-180 | reads the stored parser list; `SetParsers` proves the round trip |
| SimpleTest.Registry.SetParsers | simpletest.php:176-192 | `getParsers` returns what `setParsers` stored |
| SimpleTest.Registry.GetMockBaseClass | simpletest.php:249-253 | reads the stored mock base class; `SetMockBaseClass` proves the round trip |
| SimpleTest.Registry.SetMockBaseClass | simpletest.php:240-253 | `getMockBaseClass` returns what `setMockBaseClass` stored |
| TestContext.SimpleTestContext.constructor | simpletest.php:264-268 | a new context has no test, no reporter and an empty cache |
| TestContext.SimpleTestContext.Clear | simpletest.php:274-277 | empties the resource cache and touches neither the test nor the reporter |
| TestContext.SimpleTestContext.SetTest | simpletest.php:285-298 | empties the cache and then makes `getTest` return the test; the reporter is untouched |
| TestContext.SimpleTestContext.GetTest | simpletest.php:295-298 | reads the active test; `SetTest` proves the round trip |
| TestContext.SimpleTestContext.SetReporter | simpletest.php:306-319 | empties the cache and then makes `getReporter` return the reporter; the test is untouched |
| TestContext.SimpleTestContext.GetReporter | simpletest.php:316-319 | reads the active reporter; `SetReporter` proves the round trip |
| TestContext.SimpleTestContext.Get | simpletest.php:325-331 | on a hit returns the cached instance and changes nothing; on a miss caches and returns a new instance of the requested class, different from every instance built before |
| TestContext.GetIsStable | simpletest.php:325-331 | two `get` calls with nothing in between return the identical instance |
| TestContext.SetTestIsolatesCache | simpletest.php:285-331 | a `get` after `setTest` returns a different instance from the one cached before |
| TestContext.SetReporterIsolatesCache | simpletest.php:306-331 | a `get` after `setReporter` returns a different instance from the one cached before |
| StackTrace.LastSlash | simpletest.php:386 | finds the last `/` of a path, or reports that there is none |
| StackTrace.DirName | simpletest.php:386 | when the path has a `/` after its first character, the result followed by `/` starts the path and only a last component without `/` follows; a path without `/` gives `"."` |
| StackTrace.LiesWithinSimpleTestFolder | simpletest.php:381-392 | the frame has a file that starts with the install path and whose directory is exactly that path; `WithinFolderIsDirectChild` characterises it |
| StackTrace.WithinFolderIsDirectChild | simpletest.php:381-392 | for an install path other than `""`, `"/"` and `"."`, a frame is within the folder exactly when it has a file directly in that folder; frames without a file and files in subdirectories never are |
| StackTrace.MatchesPrefix | simpletest.php:399-407 | some configured prefix is an initial substring of the frame's function name; `FrameMatchesPrefix` is proved equal to it |
| StackTrace.EmptyPrefixMatchesAll | simpletest.php:399-407 | an empty prefix matches every frame |
| StackTrace.SimpleStackTrace.constructor | simpletest.php:349-352 | the tracer keeps the given prefix list |
| StackTrace.SimpleStackTrace.FrameMatchesPrefix | simpletest.php:399-407 | the loop with early exit answers true exactly when some prefix is an initial substring of the frame's function name |
| StackTrace.FirstQualifying | simpletest.php:365-372 | gives the first frame, in the given order, that lies outside the folder and matches a prefix, with no such frame before it; gives `None` exactly when no frame qualifies |
| StackTrace.SimpleStackTrace.TraceMethod | simpletest.php:361-374 | the foreach loop with `continue` and early return produces `Trace` of the frames |
| StackTrace.Decimal | simpletest.php:370 | the line number renders as a non-empty string of digits without a leading zero |
| StackTrace.DecimalRoundTrip | simpletest.php:370 | the rendered line number reads back as that number |
| StackTrace.Location | simpletest.php:370 | the location text is never empty, so `""` can only mean that no frame qualified |
| StackTrace.Trace | simpletest.php:361-374 | the value `traceMethod` returns: the location of the first qualifying frame, or `""`; `TraceResult` and `TraceEmpty` characterise it |
| StackTrace.TraceResult | simpletest.php:361-374 | if frame `k` qualifies and no earlier frame does, the trace is `" at [" + file + " line " + line + "]"` of frame `k` |
| StackTrace.TraceEmpty | simpletest.php:361-374 | the trace is `""` exactly when no frame qualifies |
| StackTrace.TraceSkipsLeadingFrames | simpletest.php:365-372 | frames before the first qualifying one, whether inside the folder or not matching, do not change the result |

## Left out

- `getVersion` reads the `VERSION` file. That is file I/O, so it is not modelled.
- `getRegistry` and `getContext` build their singletons lazily through static locals. The model constructs one `Registry` and one `SimpleTestContext` explicitly instead.
- `captureTrace` uses `debug_backtrace`, which is runtime introspection. `TraceMethod` always takes an explicit frame list.
- StackTrace.SimpleStackTrace.TraceMethod: given an empty (falsy) array, the source captures the live stack instead. The model scans the empty list and returns `""`.
- StackTrace.DirName: trailing and repeated `/` are not normalised the way PHP's `dirname` does. Frame file paths from the PHP runtime have neither.
- SimpleTest.Lower: locale-dependent case mapping of non-ASCII bytes by older PHP versions is not modelled; only `A`–`Z` are mapped.
- TestContext.SimpleTestContext.Get: a new instance is only known to differ from the instances this context built, not from every object in the process. Zero-argument construction by class name is a foreign call and always succeeds here.
- The reporter classes, `SimpleReflection` and the PHP class hierarchy behind `is_a` belong to other files. They are not part of this model and appear only as the opaque objects and function parameters above.
- SimpleTest.Registry.UseProxy, SetParsers, SetMockBaseClass and SimpleStackTrace take typed values (strings, object lists). PHP accepts any value there.
