/**
 * The agent's output workspace: where it lives, how a leading "~" is
 * expanded, and which output paths are redirected into it. The home
 * directory, the environment variable and the lexical path functions
 * (filepath.Clean and filepath.Dir) are parameters.
 */
module Workspace {
  import opened Text

  /** filepath.Join of two elements: empty elements are skipped and the result is cleaned. */
  function PathJoin(clean: string -> string, a: string, b: string): string
  {
    if a == "" && b == "" then ""
    else if a == "" then clean(b)
    else if b == "" then clean(a)
    else clean(a + "/" + b)
  }

  /** ExpandHome: "~" is the home directory, "~/x" is x under it, anything else is left alone. */
  function ExpandHome(path: string, home: string, clean: string -> string): string
  {
    if path == "~" then home
    else if HasPrefix(path, "~/") then PathJoin(clean, home, path[2..])
    else path
  }

  /** WorkspaceDir: $AGSH_WORKSPACE expanded when set, else agsh_workspace under the home directory. */
  function WorkspaceDir(env: string, home: string, clean: string -> string): string
  {
    if env != "" then ExpandHome(env, home, clean) else PathJoin(clean, home, "agsh_workspace")
  }

  datatype Resolved = Resolved(path: string, redirected: bool)

  /** ResolveOutputPath: a path without a directory part goes into the workspace; any other is kept as given. */
  function ResolveOutputPath(path: string, workspace: string, clean: string -> string, dir: string -> string): Resolved
  {
    var c := clean(path);
    if dir(c) == "." then Resolved(PathJoin(clean, workspace, c), true) else Resolved(path, false)
  }

  /** "~" and "~/x" expand against the home directory; every other path, absolute ones included, comes back as is. */
  lemma ExpandHomeSpec(path: string, home: string, clean: string -> string)
    ensures path == "~" ==> ExpandHome(path, home, clean) == home
    ensures |path| >= 2 && path[..2] == "~/" ==> ExpandHome(path, home, clean) == PathJoin(clean, home, path[2..])
    ensures (path == [] || path[0] != '~') ==> ExpandHome(path, home, clean) == path
    ensures path != "~" && !HasPrefix(path, "~/") ==> ExpandHome(path, home, clean) == path
  {
  }

  /** Only a path starting with "~" can change. */
  lemma ExpandHomeOnlyTilde(path: string, home: string, clean: string -> string)
    requires ExpandHome(path, home, clean) != path
    ensures path != [] && path[0] == '~'
  {
  }

  /** With the variable set the workspace is its expansion; unset, it is agsh_workspace under home. */
  lemma WorkspaceDirSpec(env: string, home: string, clean: string -> string)
    ensures env != "" ==> WorkspaceDir(env, home, clean) == ExpandHome(env, home, clean)
    ensures env == "" && home != "" ==> WorkspaceDir(env, home, clean) == clean(home + "/agsh_workspace")
    ensures env == "" && home == "" ==> WorkspaceDir(env, home, clean) == clean("agsh_workspace")
  {
    assert home + "/" + "agsh_workspace" == home + "/agsh_workspace";
  }

  /**
   * The element of p starting at index i is "." or "..". Such elements,
   * repeated slashes and a trailing slash are what filepath.Clean rewrites.
   */
  predicate DotElement(p: string, i: int)
    requires 0 <= i < |p|
  {
    && (i == 0 || p[i - 1] == '/')
    && p[i] == '.'
    && (i + 1 == |p| || p[i + 1] == '/' || (p[i + 1] == '.' && (i + 2 == |p| || p[i + 2] == '/')))
  }

  /** A non-empty path that filepath.Clean leaves as it is: no "//", no trailing "/", no "." or ".." element. */
  predicate Plain(p: string)
  {
    && p != []
    && p[|p| - 1] != '/'
    && (forall i :: 0 <= i < |p| - 1 && p[i] == '/' ==> p[i + 1] != '/')
    && (forall i :: 0 <= i < |p| ==> !DotElement(p, i))
  }

  function DotSlash(p: string): string
  {
    "./" + p
  }

  /**
   * What the lexical path functions are known to do: filepath.Clean keeps a
   * plain path and drops a leading "./" from a relative one, and
   * filepath.Dir of a plain path is "." exactly when it has no slash.
   */
  ghost predicate Lexical(clean: string -> string, dir: string -> string)
  {
    && (forall p {:trigger clean(p)} :: Plain(p) ==> clean(p) == p)
    && (forall p {:trigger clean(DotSlash(p))} :: Plain(p) && p[0] != '/' ==> clean(DotSlash(p)) == clean(p))
    && (forall p {:trigger dir(p)} :: Plain(p) ==> (dir(p) == "." <==> '/' !in p))
  }

  /** A plain directory followed by a plain file name is a plain path. */
  lemma PlainChild(d: string, name: string)
    requires Plain(d) && Plain(name) && '/' !in name
    ensures Plain(d + "/" + name)
  {
    var p := d + "/" + name;
    forall i | 0 <= i < |p| - 1
      ensures p[i] == '/' ==> p[i + 1] != '/'
    {
      if i < |d| - 1 {
        assert p[i] == d[i] && p[i + 1] == d[i + 1];
      } else if i == |d| - 1 {
        assert p[i] == d[i];
      } else if i == |d| {
        assert p[i + 1] == name[0];
      } else {
        assert p[i] == name[i - |d| - 1];
      }
    }
    forall i | 0 <= i < |p|
      ensures !DotElement(p, i)
    {
      if i < |d| {
        assert p[i] == d[i];
        assert i > 0 ==> p[i - 1] == d[i - 1];
        assert i + 1 < |d| ==> p[i + 1] == d[i + 1];
        assert i + 1 == |d| ==> p[i + 1] == '/';
        assert i + 2 < |d| ==> p[i + 2] == d[i + 2];
        assert i + 2 == |d| ==> p[i + 2] == '/';
        assert !DotElement(d, i);
      } else if i > |d| {
        var j := i - |d| - 1;
        assert p[i] == name[j];
        assert p[i - 1] == if j == 0 then '/' else name[j - 1];
        assert i + 1 < |p| ==> p[i + 1] == name[j + 1];
        assert i + 2 < |p| ==> p[i + 2] == name[j + 2];
        assert !DotElement(name, j);
      }
    }
  }

  /**
   * A bare file name, given as is or as "./name", is redirected to the file
   * of that name directly inside the workspace.
   */
  lemma ResolveBareName(name: string, workspace: string, clean: string -> string, dir: string -> string)
    requires Lexical(clean, dir)
    requires Plain(name) && '/' !in name && Plain(workspace)
    ensures ResolveOutputPath(name, workspace, clean, dir) == Resolved(workspace + "/" + name, true)
    ensures ResolveOutputPath(DotSlash(name), workspace, clean, dir) == Resolved(workspace + "/" + name, true)
  {
    PlainChild(workspace, name);
    assert clean(DotSlash(name)) == clean(name) == name;
    assert dir(name) == ".";
    assert clean(workspace + "/" + name) == workspace + "/" + name;
  }

  /**
   * A plain path with a directory part (a relative one such as
   * "internal/roles/foo.go", an absolute one such as "/tmp/out.txt", or an
   * expanded home path) is returned unchanged and not redirected.
   */
  lemma ResolveKeepsDirectory(path: string, workspace: string, clean: string -> string, dir: string -> string)
    requires Lexical(clean, dir)
    requires Plain(path) && '/' in path
    ensures ResolveOutputPath(path, workspace, clean, dir) == Resolved(path, false)
  {
    assert clean(path) == path;
    assert dir(path) != ".";
  }

  /** With the variable unset and a plain home directory, the workspace is home/agsh_workspace itself. */
  /** A name with neither '/' nor '.' is Plain. */
  lemma NameWithoutDotsPlain(name: string)
    requires name != [] && '/' !in name && '.' !in name
    ensures Plain(name)
  {
    assert name[|name| - 1] in name;
    forall i | 0 <= i < |name|
      ensures !DotElement(name, i)
    {
      assert name[i] in name;
    }
  }

  lemma DefaultWorkspacePlain(home: string, clean: string -> string, dir: string -> string)
    requires Lexical(clean, dir) && Plain(home)
    ensures WorkspaceDir("", home, clean) == home + "/agsh_workspace"
    ensures Plain(WorkspaceDir("", home, clean))
  {
    var name := "agsh_workspace";
    assert '/' !in name && '.' !in name;
    NameWithoutDotsPlain(name);
    PlainChild(home, name);
    assert clean(home + "/" + name) == home + "/" + name;
  }
}
