/**
 * The `SimpleTest` registry: the keyed record of global options that the
 * framework's static methods read and update in place.
 */
module SimpleTest {
  import opened Values

  // ---------------------------------------------------------------------
  // strtolower
  // ---------------------------------------------------------------------

  /** One character through `strtolower` (ASCII letters only). */
  function LowerChar(ch: char): char
  {
    if 'A' <= ch <= 'Z' then (ch as int + ('a' as int - 'A' as int)) as char else ch
  }

  /** `strtolower`: every ASCII capital replaced by its small letter. */
  function Lower(s: string): (r: string)
    ensures |r| == |s|
    ensures forall i :: 0 <= i < |s| ==> r[i] == LowerChar(s[i])
    ensures forall i :: 0 <= i < |r| ==> !('A' <= r[i] <= 'Z')
  {
    if s == [] then [] else [LowerChar(s[0])] + Lower(s[1..])
  }

  /** Lower-casing a lower-cased name changes nothing. */
  lemma LowerIdempotent(s: string)
    ensures Lower(Lower(s)) == Lower(s)
  {
  }

  /** Every name in the set is its own lower-cased form. */
  ghost predicate AllLower(names: set<string>)
  {
    forall x :: x in names ==> Lower(x) == x
  }

  // ---------------------------------------------------------------------
  // Ignore list and parent propagation
  // ---------------------------------------------------------------------

  /**
   * One iteration of the loop in `ignoreParentsIfIgnored`: when `cls` is
   * ignored and has a parent, the parent's lower-cased name joins the list.
   */
  function ParentStep(ignored: set<string>, cls: string, parentOf: string -> Option<string>): set<string>
  {
    if Lower(cls) in ignored then
      match parentOf(cls)
      case Some(p) => ignored + {Lower(p)}
      case None => ignored
    else ignored
  }

  /** The ignore list after `ignoreParentsIfIgnored(classes)` has run over all of `classes`, in order. */
  function Propagated(ignored: set<string>, classes: seq<string>, parentOf: string -> Option<string>): (r: set<string>)
    ensures ignored <= r
    decreases |classes|
  {
    if classes == [] then ignored
    else ParentStep(Propagated(ignored, classes[..|classes| - 1], parentOf), classes[|classes| - 1], parentOf)
  }

  /** The list only grows along the loop: the state before element `i` is within the state before `j >= i`. */
  lemma {:induction false} PropagatedPrefixMonotone(ignored: set<string>, classes: seq<string>, i: nat, j: nat, parentOf: string -> Option<string>)
    requires i <= j <= |classes|
    ensures Propagated(ignored, classes[..i], parentOf) <= Propagated(ignored, classes[..j], parentOf)
    decreases j - i
  {
    if i < j {
      PropagatedPrefixMonotone(ignored, classes, i, j - 1, parentOf);
      assert classes[..j][..j - 1] == classes[..j - 1];
    }
  }

  /**
   * A class that is ignored when the loop reaches it (position `k`) and has a
   * parent `p` leaves `p` ignored at the end.
   */
  lemma {:induction false} PropagatedAtTurn(ignored: set<string>, classes: seq<string>, k: nat, p: string, parentOf: string -> Option<string>)
    requires k < |classes|
    requires Lower(classes[k]) in Propagated(ignored, classes[..k], parentOf)
    requires parentOf(classes[k]) == Some(p)
    ensures Lower(p) in Propagated(ignored, classes, parentOf)
  {
    var n := |classes|;
    if k == n - 1 {
    } else {
      var init := classes[..n - 1];
      assert init[..k] == classes[..k];
      PropagatedAtTurn(ignored, init, k, p, parentOf);
    }
  }

  /** Every class that was ignored before the call and has a parent has that parent ignored after it. */
  lemma PropagatedIgnoresParents(ignored: set<string>, classes: seq<string>, k: nat, p: string, parentOf: string -> Option<string>)
    requires k < |classes|
    requires Lower(classes[k]) in ignored
    requires parentOf(classes[k]) == Some(p)
    ensures Lower(p) in Propagated(ignored, classes, parentOf)
  {
    PropagatedAtTurn(ignored, classes, k, p, parentOf);
  }

  /**
   * When an earlier element `j` is ignored and its parent is the later
   * element `k`, then `k` becomes ignored during the call and its own parent
   * is ignored as well.
   */
  lemma PropagatedChain(ignored: set<string>, classes: seq<string>, j: nat, k: nat, p: string, q: string,
                        parentOf: string -> Option<string>)
    requires j < k < |classes|
    requires Lower(classes[j]) in ignored
    requires parentOf(classes[j]) == Some(p) && Lower(p) == Lower(classes[k])
    requires parentOf(classes[k]) == Some(q)
    ensures Lower(q) in Propagated(ignored, classes, parentOf)
  {
    var pre := classes[..k];
    assert pre[..j] == classes[..j];
    assert pre[j] == classes[j];
    PropagatedAtTurn(ignored, pre, j, p, parentOf);
    PropagatedAtTurn(ignored, classes, k, q, parentOf);
  }

  /**
   * Nothing else joins the list: every new name is the lower-cased parent of
   * an element that was ignored when the loop reached it (one parent step per
   * element, no transitive closure).
   */
  lemma {:induction false} PropagatedOnlyParents(ignored: set<string>, classes: seq<string>, x: string, parentOf: string -> Option<string>)
    requires x in Propagated(ignored, classes, parentOf)
    requires x !in ignored
    ensures exists k :: 0 <= k < |classes| && Lower(classes[k]) in Propagated(ignored, classes[..k], parentOf)
                      && parentOf(classes[k]).Some? && x == Lower(parentOf(classes[k]).value)
  {
    var n := |classes|;
    var init := classes[..n - 1];
    var before := Propagated(ignored, init, parentOf);
    if x in before {
      PropagatedOnlyParents(ignored, init, x, parentOf);
      var k :| 0 <= k < |init| && Lower(init[k]) in Propagated(ignored, init[..k], parentOf)
               && parentOf(init[k]).Some? && x == Lower(parentOf(init[k]).value);
      assert init[..k] == classes[..k];
      assert init[k] == classes[k];
    } else {
      assert classes[..n - 1] == init;
      assert Lower(classes[n - 1]) in Propagated(ignored, classes[..n - 1], parentOf);
    }
  }

  /** Propagation keeps every name in the list lower-cased. */
  lemma {:induction false} PropagatedAllLower(ignored: set<string>, classes: seq<string>, parentOf: string -> Option<string>)
    requires AllLower(ignored)
    ensures AllLower(Propagated(ignored, classes, parentOf))
    decreases |classes|
  {
    if classes != [] {
      PropagatedAllLower(ignored, classes[..|classes| - 1], parentOf);
      var c := classes[|classes| - 1];
      if parentOf(c).Some? {
        LowerIdempotent(parentOf(c).value);
      }
    }
  }

  // ---------------------------------------------------------------------
  // Preferred pool
  // ---------------------------------------------------------------------

  /** The argument of `preferred`: one class name, or a list of them. */
  datatype ClassFilter = OneClass(name: string) | Classes(names: seq<string>)

  /** The classes a lookup tries: a single name stands for the list holding just that name. */
  function AsList(filter: ClassFilter): seq<string>
  {
    match filter
    case OneClass(c) => [c]
    case Classes(cs) => cs
  }

  /** `is_a($object, $class)` holds for at least one of the classes. */
  predicate MatchesAny(o: Obj, classes: seq<string>, isA: (Obj, string) -> bool)
  {
    exists c :: c in classes && isA(o, c)
  }

  /**
   * The position of the newest pool entry that is an instance of one of
   * `classes`, or `None` when no entry is.
   */
  function LastMatchIndex(pool: seq<Obj>, classes: seq<string>, isA: (Obj, string) -> bool): (r: Option<nat>)
    ensures r.Some? ==> r.value < |pool| && MatchesAny(pool[r.value], classes, isA)
    ensures r.Some? ==> forall j :: r.value < j < |pool| ==> !MatchesAny(pool[j], classes, isA)
    ensures r.None? <==> forall j :: 0 <= j < |pool| ==> !MatchesAny(pool[j], classes, isA)
    decreases |pool|
  {
    if pool == [] then None
    else if MatchesAny(pool[|pool| - 1], classes, isA) then Some(|pool| - 1)
    else LastMatchIndex(pool[..|pool| - 1], classes, isA)
  }

  /** The pool entry a lookup result designates (PHP returns `null` for none). */
  function EntryAt(pool: seq<Obj>, index: Option<nat>): Option<Obj>
  {
    match index
    case Some(i) => if i < |pool| then Some(pool[i]) else None
    case None => None
  }

  /** Looking up a single class name gives the same entry as looking up the one-element list of it. */
  lemma SingleClassIsOneElementList(pool: seq<Obj>, c: string, isA: (Obj, string) -> bool)
    ensures EntryAt(pool, LastMatchIndex(pool, AsList(OneClass(c)), isA))
         == EntryAt(pool, LastMatchIndex(pool, AsList(Classes([c])), isA))
  {
  }

  /** After `prefer(o)`, a lookup that `o` satisfies finds `o` itself, now at the end of the pool. */
  lemma PreferredFindsNewest(pool: seq<Obj>, o: Obj, classes: seq<string>, isA: (Obj, string) -> bool)
    requires MatchesAny(o, classes, isA)
    ensures LastMatchIndex(pool + [o], classes, isA) == Some(|pool|)
  {
  }

  /** After `prefer(o)`, a lookup that `o` does not satisfy finds what it found before. */
  lemma PreferredSkipsNonMatching(pool: seq<Obj>, o: Obj, classes: seq<string>, isA: (Obj, string) -> bool)
    requires !MatchesAny(o, classes, isA)
    ensures LastMatchIndex(pool + [o], classes, isA) == LastMatchIndex(pool, classes, isA)
  {
    assert (pool + [o])[..|pool|] == pool;
  }

  /** The three reporters a fresh registry prefers, oldest first. */
  const HtmlReporter := Obj("HtmlReporter", 0)
  const TextReporter := Obj("TextReporter", 1)
  const XmlReporter := Obj("XmlReporter", 2)

  function DefaultPool(): seq<Obj>
  {
    [HtmlReporter, TextReporter, XmlReporter]
  }

  /** On the default pool, the XML reporter wins whenever it matches. */
  lemma DefaultPoolPrefersXml(classes: seq<string>, isA: (Obj, string) -> bool)
    requires MatchesAny(XmlReporter, classes, isA)
    ensures EntryAt(DefaultPool(), LastMatchIndex(DefaultPool(), classes, isA)) == Some(XmlReporter)
  {
  }

  /** On the default pool, the text reporter wins when it matches and the XML reporter does not. */
  lemma DefaultPoolPrefersText(classes: seq<string>, isA: (Obj, string) -> bool)
    requires !MatchesAny(XmlReporter, classes, isA) && MatchesAny(TextReporter, classes, isA)
    ensures EntryAt(DefaultPool(), LastMatchIndex(DefaultPool(), classes, isA)) == Some(TextReporter)
  {
  }

  /**
   * A pool that still starts with the default reporters never comes up empty
   * for a lookup that one of those reporters satisfies.
   */
  lemma PoolWithDefaultsFindsReporter(pool: seq<Obj>, classes: seq<string>, isA: (Obj, string) -> bool)
    requires DefaultPool() <= pool
    requires MatchesAny(HtmlReporter, classes, isA) || MatchesAny(TextReporter, classes, isA)
          || MatchesAny(XmlReporter, classes, isA)
    ensures LastMatchIndex(pool, classes, isA).Some?
  {
    assert pool[0] == HtmlReporter && pool[1] == TextReporter && pool[2] == XmlReporter;
  }

  // ---------------------------------------------------------------------
  // The registry object
  // ---------------------------------------------------------------------

  /** The keyed array behind `SimpleTest::getRegistry()`, one field per key. */
  class Registry {
    var ignoreList: set<string>
    var preferred: seq<Obj>
    var defaultProxy: Option<string>
    var defaultProxyUsername: Option<string>
    var defaultProxyPassword: Option<string>
    var parsers: Option<seq<Obj>>
    var mockBaseClass: string

    /** Names in the ignore list are lower-cased; the pool still starts with the default reporters. */
    ghost predicate Valid()
      reads this
    {
      AllLower(ignoreList) && DefaultPool() <= preferred
    }

    /** `getDefaults()`. */
    constructor ()
      ensures Valid()
      ensures ignoreList == {}
      ensures preferred == [HtmlReporter, TextReporter, XmlReporter]
      ensures defaultProxy == None && defaultProxyUsername == None && defaultProxyPassword == None
      ensures parsers == None
      ensures mockBaseClass == "SimpleMock"
    {
      ignoreList := {};
      preferred := DefaultPool();
      defaultProxy, defaultProxyUsername, defaultProxyPassword := None, None, None;
      parsers := None;
      mockBaseClass := "SimpleMock";
    }

    /** `isIgnored($class)`: case-insensitive membership of the ignore list. */
    predicate IsIgnored(cls: string)
      reads this
      ensures Valid() ==> (IsIgnored(cls) <==> exists x :: x in ignoreList && Lower(x) == Lower(cls))
    {
      LowerIdempotent(cls);
      Lower(cls) in ignoreList
    }

    /** `ignore($class)`. */
    method Ignore(cls: string)
      requires Valid()
      modifies this`ignoreList
      ensures Valid()
      ensures ignoreList == old(ignoreList) + {Lower(cls)}
      ensures forall d :: IsIgnored(d) <==> old(IsIgnored(d)) || Lower(d) == Lower(cls)
    {
      LowerIdempotent(cls);
      ignoreList := ignoreList + {Lower(cls)};
    }

    /** `ignoreParentsIfIgnored($classes)`, with `SimpleReflection::getParent` as `parentOf`. */
    method IgnoreParentsIfIgnored(classes: seq<string>, parentOf: string -> Option<string>)
      requires Valid()
      modifies this`ignoreList
      ensures Valid()
      ensures ignoreList == Propagated(old(ignoreList), classes, parentOf)
    {
      for i := 0 to |classes|
        invariant Valid()
        invariant ignoreList == Propagated(old(ignoreList), classes[..i], parentOf)
      {
        assert classes[..i + 1][..i] == classes[..i];
        var cls := classes[i];
        if IsIgnored(cls) {
          var parent := parentOf(cls);
          if parent.Some? {
            Ignore(parent.value);
          }
        }
      }
      assert classes[..|classes|] == classes;
    }

    /** `prefer($object)`. */
    method Prefer(o: Obj)
      requires Valid()
      modifies this`preferred
      ensures Valid()
      ensures preferred == old(preferred) + [o]
    {
      preferred := preferred + [o];
    }

    /** `preferred($classes)`: newest matching pool entry, or `None` for PHP `null`. */
    method Preferred(filter: ClassFilter, isA: (Obj, string) -> bool) returns (r: Option<Obj>)
      ensures r == EntryAt(preferred, LastMatchIndex(preferred, AsList(filter), isA))
    {
      var classes := AsList(filter);
      var i := |preferred| - 1;
      while i >= 0
        invariant -1 <= i < |preferred|
        invariant forall k :: i < k < |preferred| ==> !MatchesAny(preferred[k], classes, isA)
      {
        var j := 0;
        while j < |classes|
          invariant 0 <= j <= |classes|
          invariant forall m :: 0 <= m < j ==> !isA(preferred[i], classes[m])
        {
          if isA(preferred[i], classes[j]) {
            return Some(preferred[i]);
          }
          j := j + 1;
        }
        i := i - 1;
      }
      return None;
    }

    /** `useProxy($proxy, $username = false, $password = false)`. */
    method UseProxy(proxy: Option<string>, username: Option<string> := None, password: Option<string> := None)
      modifies this`defaultProxy, this`defaultProxyUsername, this`defaultProxyPassword
      ensures GetDefaultProxy() == proxy
      ensures GetDefaultProxyUsername() == username
      ensures GetDefaultProxyPassword() == password
    {
      defaultProxy, defaultProxyUsername, defaultProxyPassword := proxy, username, password;
    }

    function GetDefaultProxy(): Option<string>
      reads this
    {
      defaultProxy
    }

    function GetDefaultProxyUsername(): Option<string>
      reads this
    {
      defaultProxyUsername
    }

    function GetDefaultProxyPassword(): Option<string>
      reads this
    {
      defaultProxyPassword
    }

    function GetParsers(): Option<seq<Obj>>
      reads this
    {
      parsers
    }

    /** `setParsers($parsers)`. */
    method SetParsers(p: Option<seq<Obj>>)
      modifies this`parsers
      ensures GetParsers() == p
    {
      parsers := p;
    }

    function GetMockBaseClass(): string
      reads this
    {
      mockBaseClass
    }

    /** `setMockBaseClass($mock_base)` (deprecated in the source). */
    method SetMockBaseClass(mockBase: string)
      modifies this`mockBaseClass
      ensures GetMockBaseClass() == mockBase
    {
      mockBaseClass := mockBase;
    }
  }

  /** `ignore` twice leaves the same list as `ignore` once. */
  method IgnoreTwice(registry: Registry, cls: string)
    requires registry.Valid()
    modifies registry`ignoreList
    ensures registry.Valid()
    ensures registry.ignoreList == old(registry.ignoreList) + {Lower(cls)}
  {
    registry.Ignore(cls);
    registry.Ignore(cls);
  }
}
