/** The POSIX path operations the pipeline uses on plain strings:
    `os.path.join`, `os.path.dirname`, the directories `os.makedirs` creates,
    and pathlib's `name` and `stem`. */
module PyPath {

  predicate AllSlashes(s: string)
  {
    forall i :: 0 <= i < |s| ==> s[i] == '/'
  }

  /** Everything after the last '/' of `s` (all of `s` when it has none). */
  function AfterLastSlash(s: string): (r: string)
    ensures '/' !in r
    ensures |r| <= |s| && r == s[|s| - |r|..]
    ensures |r| < |s| ==> s[|s| - |r| - 1] == '/'
    ensures s != [] && s[|s| - 1] != '/' ==> r != []
  {
    if s == [] then []
    else if s[|s| - 1] == '/' then []
    else AfterLastSlash(s[..|s| - 1]) + [s[|s| - 1]]
  }

  /** `s.rstrip('/')`. */
  function StripTrailingSlashes(s: string): (r: string)
    ensures |r| <= |s| && r == s[..|r|]
    ensures r == [] || r[|r| - 1] != '/'
    ensures AllSlashes(s[|r|..])
  {
    if s != [] && s[|s| - 1] == '/' then StripTrailingSlashes(s[..|s| - 1]) else s
  }

  /** pathlib's `PurePath(p).name`: the last component, trailing slashes ignored. */
  function Name(p: string): (r: string)
    ensures '/' !in r
  {
    AfterLastSlash(StripTrailingSlashes(p))
  }

  /** `n.rfind('.')`: the index of the last dot, -1 when there is none. */
  function LastDot(n: string): (r: int)
    ensures -1 <= r < |n|
    ensures r >= 0 ==> n[r] == '.'
    ensures forall j :: r < j < |n| ==> n[j] != '.'
  {
    if n == [] then -1
    else if n[|n| - 1] == '.' then |n| - 1
    else LastDot(n[..|n| - 1])
  }

  /** pathlib's `stem`: the name without its last suffix, where a suffix is a
      dot that is neither the first nor the last character of the name,
      with what follows it. */
  function Stem(p: string): (r: string)
    ensures '/' !in r
  {
    var n := Name(p);
    var i := LastDot(n);
    if 0 < i < |n| - 1 then n[..i] else n
  }

  /** `os.path.join(a, b)` for two components. */
  function Join(a: string, b: string): (r: string)
    ensures |b| > 0 && b[0] != '/' ==> |r| >= |b| && r[|r| - |b|..] == b
  {
    if |b| > 0 && b[0] == '/' then b
    else if a == [] || a[|a| - 1] == '/' then a + b
    else a + "/" + b
  }

  /** `os.path.dirname(p)`: everything up to the last '/', with the trailing
      slashes removed unless it consists of slashes only. */
  function Dirname(p: string): (r: string)
    ensures r == [] <==> '/' !in p
    ensures |r| <= |p|
    ensures p != [] && p[|p| - 1] != '/' ==> |r| < |p|
  {
    var head := p[..|p| - |AfterLastSlash(p)|];
    HeadHasSlash(p);
    if head != [] && !AllSlashes(head) then StripTrailingSlashes(head) else head
  }

  lemma HeadHasSlash(p: string)
    ensures var head := p[..|p| - |AfterLastSlash(p)|];
            (head == [] <==> '/' !in p) && (head != [] ==> head[|head| - 1] == '/')
  {
    var tail := AfterLastSlash(p);
    var head := p[..|p| - |tail|];
    assert p == head + tail;
    if head == [] {
      assert p == tail;
    } else {
      assert head[|head| - 1] == '/';
    }
  }

  /** The directories `os.makedirs(d)` leaves in place: `d` itself and each
      ancestor reached by taking `dirname` until it is empty or stops
      shrinking (the root). */
  function DirChain(d: string): (c: set<string>)
    ensures d in c
    ensures forall x :: x in c ==> |x| <= |d|
    decreases |d|
  {
    var up := Dirname(d);
    if up != [] && |up| < |d| then {d} + DirChain(up) else {d}
  }

  /** The chain of an ancestor lies inside the chain: every directory that
      `makedirs` creates for an ancestor it also creates for `d`. */
  lemma {:induction false} DirChainClosed(d: string, a: string)
    requires a in DirChain(d)
    ensures DirChain(a) <= DirChain(d)
    decreases |d|
  {
    if a != d {
      DirChainClosed(Dirname(d), a);
    }
  }

  /** `os.path.join(d, name)` for a name without slashes contains a slash
      exactly when `d` is not empty, so its `dirname` is empty exactly then. */
  lemma JoinDirnameEmpty(d: string, name: string)
    requires '/' !in name && name != []
    ensures Dirname(Join(d, name)) == [] <==> d == []
  {
    var j := Join(d, name);
    if d != [] {
      if d[|d| - 1] == '/' {
        assert j[|d| - 1] == '/';
      } else {
        assert j[|d|] == '/';
      }
    }
  }

  /** Joining one directory with two relative-or-absolute names of the same
      kind gives the same path only for the same name. */
  lemma JoinInjective(d: string, b1: string, b2: string)
    requires b1 != [] && b2 != [] && b1[0] == b2[0]
    ensures Join(d, b1) == Join(d, b2) ==> b1 == b2
  {
    if b1[0] != '/' && Join(d, b1) == Join(d, b2) {
      var pre := if d == [] || d[|d| - 1] == '/' then d else d + "/";
      assert Join(d, b1) == pre + b1 && Join(d, b2) == pre + b2;
      assert b1 == (pre + b1)[|pre|..];
    }
  }
}
