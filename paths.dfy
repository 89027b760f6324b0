/** The two path operations of `os.path` the provider relies on. */
module Paths {

  /** `s.rstrip('/')` */
  function TrimTrailingSlashes(s: string): (r: string)
    ensures |r| <= |s| && r == s[..|r|]
    ensures r == [] || r[|r| - 1] != '/'
    ensures forall i :: |r| <= i < |s| ==> s[i] == '/'
  {
    if s != [] && s[|s| - 1] == '/' then TrimTrailingSlashes(s[..|s| - 1]) else s
  }

  /**
   * `os.path.expanduser(path)` on POSIX, with `home` the value of $HOME.
   * A leading `~` alone or followed by `/` stands for the home directory
   * (without its trailing slashes); `~user` forms are left as they are,
   * which is what Python does for a user it cannot look up.
   */
  function ExpandUser(home: string, path: string): (r: string)
  {
    if path == [] || path[0] != '~' || (|path| > 1 && path[1] != '/') then path
    else
      var expanded := TrimTrailingSlashes(home) + path[1..];
      if expanded == [] then "/" else expanded
  }

  /** A path that does not start with `~` is left unchanged; `~/rest` becomes the home directory followed by `/rest`. */
  lemma ExpandUserCases(home: string, path: string)
    ensures (path == [] || path[0] != '~') ==> ExpandUser(home, path) == path
    ensures |path| > 1 && path[0] == '~' && path[1] == '/' ==>
      ExpandUser(home, path) == TrimTrailingSlashes(home) + path[1..]
  {
  }

  /** `os.path.join(directory, name)` for two components. */
  function Join(directory: string, name: string): (r: string)
    ensures name != [] && name[0] == '/' ==> r == name
    ensures |r| >= |name| && r[|r| - |name|..] == name
    ensures (name == [] || name[0] != '/') ==> |r| >= |directory| && r[..|directory|] == directory
  {
    if name != [] && name[0] == '/' then name
    else if directory == [] || directory[|directory| - 1] == '/' then directory + name
    else directory + "/" + name
  }

  /** `p[:p.rfind('/') + 1]`: everything up to and including the last slash. */
  function UpToLastSlash(p: string): (r: string)
    ensures |r| <= |p| && r == p[..|r|]
    ensures r == [] || r[|r| - 1] == '/'
    ensures forall i :: |r| <= i < |p| ==> p[i] != '/'
  {
    if p == [] || p[|p| - 1] == '/' then p else UpToLastSlash(p[..|p| - 1])
  }

  /** `os.path.dirname(p)`: the part before the last slash, without its trailing slashes unless it is all slashes. */
  function Dirname(p: string): (r: string)
    ensures r == [] <==> '/' !in p
  {
    var head := UpToLastSlash(p);
    if exists i :: 0 <= i < |head| && head[i] != '/' then TrimTrailingSlashes(head) else head
  }
}
