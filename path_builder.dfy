/** construct_path: the full path of a directory entry, built from the path of the
    directory being read and the entry's name. */
module PathBuilder {
  import opened Wrappers

  /** The size construct_path asks malloc for: both strings, one separator and the
      terminating NUL. */
  function PathSize(parent: string, child: string): nat {
    1 + |parent| + 1 + |child|
  }

  predicate EndsWithSlash(s: string) {
    |s| > 0 && s[|s| - 1] == '/'
  }

  /** `child[0] == '/'`; for an empty child C reads the terminating NUL, which is not '/'. */
  predicate StartsWithSlash(s: string) {
    |s| > 0 && s[0] == '/'
  }

  /** The text the sprintf calls of construct_path write. When the two strings differ the
      source reads the last character of parent, so parent must then be non-empty.
      The result is parent, at most one inserted '/', then child: the '/' is inserted
      exactly when neither side already supplies one, and an existing "//" is kept. */
  function JoinPath(parent: string, child: string): (r: string)
    requires parent == child || |parent| > 0
    ensures parent == child ==> r == parent
    ensures parent != child ==>
      |parent| + |child| <= |r| <= |parent| + |child| + 1 &&
      r[..|parent|] == parent && r[|r| - |child|..] == child
    ensures parent != child ==>
      (|r| == |parent| + |child| <==> EndsWithSlash(parent) || StartsWithSlash(child))
    ensures parent != child && |r| == |parent| + |child| + 1 ==> r[|parent|] == '/'
  {
    if parent == child then parent
    else if parent[|parent| - 1] == '/' || (|child| > 0 && child[0] == '/') then parent + child
    else parent + "/" + child
  }

  /** construct_path itself. `mallocOk` is the outcome of malloc, which the model does not
      decide. After a successful allocation the overflow test on sprintf's count can never
      fire: the result is present exactly when malloc succeeded, and it is the joined path. */
  function ConstructPath(parent: string, child: string, mallocOk: bool): (r: Option<string>)
    requires parent == child || |parent| > 0
    ensures r.Some? <==> mallocOk
    ensures r.Some? ==> r.value == JoinPath(parent, child) && |r.value| < PathSize(parent, child)
  {
    if !mallocOk then None
    else
      var s := JoinPath(parent, child);
      if |s| > PathSize(parent, child) - 1 then None else Some(s)
  }

  /** The last component of a path: what follows its last '/'. */
  function Basename(s: string): (r: string)
    ensures '/' !in r
    ensures |r| <= |s|
  {
    if s == [] || s[|s| - 1] == '/' then [] else Basename(s[..|s| - 1]) + [s[|s| - 1]]
  }

  /** The last component is a suffix of the path. */
  lemma {:induction false} BasenameIsSuffix(s: string)
    ensures Basename(s) == s[|s| - |Basename(s)|..]
  {
    if s != [] && s[|s| - 1] != '/' {
      var init := s[..|s| - 1];
      BasenameIsSuffix(init);
      assert s == init + [s[|s| - 1]];
    }
  }

  /** A slash-free name appended after a '/' is the last component of the result. */
  lemma {:induction false} BasenameAfterSlash(dir: string, name: string)
    requires EndsWithSlash(dir)
    requires '/' !in name
    ensures Basename(dir + name) == name
  {
    if name == [] {
      assert dir + name == dir;
    } else {
      var init := name[..|name| - 1];
      assert (dir + name)[..|dir + name| - 1] == dir + init;
      assert name == init + [name[|name| - 1]];
      BasenameAfterSlash(dir, init);
    }
  }

  /** A slash-free string is its own last component. */
  lemma {:induction false} BasenameOfName(name: string)
    requires '/' !in name
    ensures Basename(name) == name
  {
    if name != [] {
      var init := name[..|name| - 1];
      assert name == init + [name[|name| - 1]];
      BasenameOfName(init);
    }
  }

  /** Splitting a built path gives back the entry's name: for an entry name as readdir
      returns it (non-empty, no '/'), the last component of the joined path is that name,
      also when the name equals the parent and the parent is returned. */
  lemma {:induction false} BasenameOfJoin(parent: string, child: string)
    requires parent == child || |parent| > 0
    requires |child| > 0 && '/' !in child
    ensures Basename(JoinPath(parent, child)) == child
  {
    if parent == child {
      BasenameOfName(child);
    } else if EndsWithSlash(parent) {
      BasenameAfterSlash(parent, child);
    } else {
      assert child[0] in child;
      assert parent + "/" + child == (parent + "/") + child;
      BasenameAfterSlash(parent + "/", child);
    }
  }

  /** Separators are neither added nor collapsed when both sides already have one. */
  lemma DoubleSlashKept()
    ensures JoinPath("usr/", "/lib") == "usr//lib"
    ensures JoinPath("usr", "lib") == "usr/lib"
    ensures JoinPath(".", ".") == "."
  {
  }
}
