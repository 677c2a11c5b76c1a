/** POSIX path joining, as Python's `os.path` does it. */
module Paths {
  import opened Text

  /** `os.path.isabs`: the path begins with the separator. */
  predicate IsAbs(p: string) {
    StartsWith(p, "/")
  }

  /** `os.path.join(a, b)`: an absolute `b` replaces `a`; otherwise one
      separator is put between them unless `a` is empty or already ends
      with one. */
  function Join(a: string, b: string): (r: string)
    ensures IsAbs(b) ==> r == b
    ensures !IsAbs(b) && (a == [] || EndsWith(a, "/")) ==> r == a + b
    ensures !IsAbs(b) && a != [] && !EndsWith(a, "/") ==> r == a + "/" + b
    ensures EndsWith(r, b)
    ensures IsAbs(a) ==> IsAbs(r)
  {
    EndsWithConcat(a, b);
    EndsWithConcat(a + "/", b);
    if IsAbs(b) then b
    else if a == [] || EndsWith(a, "/") then a + b
    else a + "/" + b
  }

  /** `os.path.abspath(p)` with the working directory `cwd` as a parameter;
      an absolute `p` is kept, a relative one is joined to `cwd`. */
  function AbsPath(cwd: string, p: string): (r: string)
    requires IsAbs(cwd)
    ensures IsAbs(r)
    ensures EndsWith(r, p)
    ensures IsAbs(p) ==> r == p
  {
    if IsAbs(p) then p else Join(cwd, p)
  }
}
