/**
 * POSIX path joining, as `os.path.join(a, b)` does it for two parts:
 * an absolute second part replaces the first, and a separator is added
 * only when the first part does not already end with one.
 */
module Paths {

  const Sep: char := '/'

  predicate IsAbsolute(p: string) {
    |p| > 0 && p[0] == Sep
  }

  function Join(dir: string, name: string): (r: string)
    ensures IsAbsolute(name) ==> r == name
    ensures !IsAbsolute(name) ==> |r| >= |dir| + |name| && r[..|dir|] == dir && r[|r| - |name|..] == name
  {
    if IsAbsolute(name) then name
    else if dir == [] || dir[|dir| - 1] == Sep then dir + name
    else dir + [Sep] + name
  }

  /** The last component of a path: everything after its last separator. */
  function BaseName(p: string): (r: string)
    ensures |r| <= |p|
    ensures Sep !in r
  {
    if p == [] then []
    else if p[|p| - 1] == Sep then []
    else BaseName(p[..|p| - 1]) + [p[|p| - 1]]
  }

  /** Appending separator-free text to anything ending in a separator, or to nothing, has that text as its base name. */
  lemma {:induction false} BaseNameAfterSep(prefix: string, name: string)
    requires prefix == [] || prefix[|prefix| - 1] == Sep
    requires Sep !in name
    ensures BaseName(prefix + name) == name
  {
    if name == [] {
      assert prefix + name == prefix;
    } else {
      var init := name[..|name| - 1];
      assert (prefix + name)[..|prefix + name| - 1] == prefix + init;
      BaseNameAfterSep(prefix, init);
      assert init + [name[|name| - 1]] == name;
    }
  }

  /** A relative, separator-free file name is recovered from the joined path. */
  lemma JoinBaseName(dir: string, name: string)
    requires Sep !in name
    ensures BaseName(Join(dir, name)) == name
  {
    if dir == [] || dir[|dir| - 1] == Sep {
      BaseNameAfterSep(dir, name);
    } else {
      BaseNameAfterSep(dir + [Sep], name);
      assert dir + [Sep] + name == (dir + [Sep]) + name;
    }
  }
}
