/** The PHP built-ins whose exact meaning the client's decisions depend on. */
module Php {

  /** A PHP value that may be null or unset. */
  datatype Option<+T> = None | Some(value: T)

  /** PHP's `empty()` on a string: the empty string and "0" are empty. */
  predicate EmptyString(s: string)
  {
    s == "" || s == "0"
  }

  /** PHP's `empty()` on a string-valued property that may be null or unset. */
  predicate Empty(v: Option<string>)
  {
    v.None? || EmptyString(v.value)
  }

  /** Position of the last '/' in a path, if there is one. */
  function LastSlash(path: string): (r: Option<nat>)
    ensures r.None? <==> '/' !in path
    ensures r.Some? ==> r.value < |path| && path[r.value] == '/' && '/' !in path[r.value + 1..]
  {
    if path == [] then None
    else if path[|path| - 1] == '/' then Some(|path| - 1)
    else
      var front := path[..|path| - 1];
      assert path == front + [path[|path| - 1]];
      var r := LastSlash(front);
      assert r.Some? ==> path[r.value + 1..] == front[r.value + 1..] + [path[|path| - 1]];
      r
  }

  /** PHP's `dirname()` on a plugin file path of the form `dir/file.php` or `file.php`:
      the part before the last '/', or "." when the path has no directory part. */
  function Dirname(path: string): (r: string)
    ensures '/' !in path ==> r == "."
    ensures '/' in path ==> |r| < |path| && r == path[..|r|] && path[|r|] == '/' && '/' !in path[|r| + 1..]
  {
    match LastSlash(path)
    case None => "."
    case Some(i) => path[..i]
  }
}
