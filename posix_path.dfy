/** The two POSIX `os.path` operations the handler relies on, with `/` as separator. */
module PosixPath {

  const SEP: char := '/'

  predicate StartsWithSep(s: string) { |s| > 0 && s[0] == SEP }

  predicate EndsWithSep(s: string) { |s| > 0 && s[|s| - 1] == SEP }

  /** `os.path.join(path, part)`: an absolute `part` replaces what came before; a
      separator is inserted unless `path` is empty or already ends in one. */
  function Join(path: string, part: string): string
  {
    if StartsWithSep(part) then part
    else if path == [] || EndsWithSep(path) then path + part
    else path + [SEP] + part
  }

  /** `os.path.join(a, b, c)`, which folds the two-argument join from the left. */
  function Join3(a: string, b: string, c: string): string
  {
    Join(Join(a, b), c)
  }

  /** The index just after the last separator in `p` (0 when there is none): `p.rfind('/') + 1`. */
  function AfterLastSep(p: string): (i: nat)
    ensures i <= |p|
    ensures i > 0 ==> p[i - 1] == SEP
  {
    if p == [] then 0
    else if p[|p| - 1] == SEP then |p|
    else AfterLastSep(p[..|p| - 1])
  }

  /** No separator follows the index `AfterLastSep` returns, so it marks the last one. */
  lemma {:induction false} NoSepAfterLast(p: string)
    ensures forall k :: AfterLastSep(p) <= k < |p| ==> p[k] != SEP
    decreases |p|
  {
    if p != [] && p[|p| - 1] != SEP {
      NoSepAfterLast(p[..|p| - 1]);
    }
  }

  predicate AllSeps(s: string) { forall k :: 0 <= k < |s| ==> s[k] == SEP }

  /** `s.rstrip('/')`. */
  function StripTrailingSeps(s: string): (r: string)
    ensures |r| <= |s| && r == s[..|r|]
    ensures !EndsWithSep(r)
  {
    if EndsWithSep(s) then StripTrailingSeps(s[..|s| - 1]) else s
  }

  /** `rstrip` removes separators only. */
  lemma {:induction false} StrippedOnlySeps(s: string)
    ensures forall k :: |StripTrailingSeps(s)| <= k < |s| ==> s[k] == SEP
    decreases |s|
  {
    if EndsWithSep(s) {
      StrippedOnlySeps(s[..|s| - 1]);
    }
  }

  /** `os.path.split(p)`: everything up to the last separator (trailing separators
      removed unless it consists of separators only) and everything after it. */
  function Split(p: string): (string, string)
  {
    var i := AfterLastSep(p);
    var head, tail := p[..i], p[i..];
    if head != [] && !AllSeps(head) then (StripTrailingSeps(head), tail) else (head, tail)
  }

  /** Joining a relative part onto a non-empty path that does not end in a
      separator puts exactly one separator between them. */
  lemma JoinRelative(path: string, part: string)
    requires path != [] && !EndsWithSep(path) && !StartsWithSep(part)
    ensures Join(path, part) == path + [SEP] + part
  {
  }

  /** Splitting at a separator whose left side is non-empty and does not end in a
      separator, and whose right side holds none, gives back both sides. */
  lemma {:induction false} SplitJoined(head: string, tail: string)
    requires head != [] && !EndsWithSep(head) && SEP !in tail
    ensures Split(head + [SEP] + tail) == (head, tail)
  {
    var p := head + [SEP] + tail;
    LastSepAt(head + [SEP], tail);
    assert p[..|head| + 1] == head + [SEP];
    assert p[|head| + 1..] == tail;
    assert StripTrailingSeps(head + [SEP]) == head by {
      assert (head + [SEP])[..|head|] == head;
    }
    assert !AllSeps(head + [SEP]) by {
      assert (head + [SEP])[|head| - 1] != SEP;
    }
  }

  lemma {:induction false} LastSepAt(prefix: string, tail: string)
    requires EndsWithSep(prefix) && SEP !in tail
    ensures AfterLastSep(prefix + tail) == |prefix|
    decreases |tail|
  {
    var p := prefix + tail;
    if tail == [] {
      assert p == prefix;
    } else {
      assert p[|p| - 1] == tail[|tail| - 1];
      assert p[..|p| - 1] == prefix + tail[..|tail| - 1];
      LastSepAt(prefix, tail[..|tail| - 1]);
    }
  }
}
