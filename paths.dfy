/**
 * `java.io.File` path composition as the activity uses it: a child named
 * under a directory, and the parent directory of a file.
 */
module Paths {
  import opened Wrappers

  /** `File(dir, name)`: the child `name` under `dir`. */
  function Join(dir: string, name: string): string {
    dir + "/" + name
  }

  /** `File.parentFile`: everything before the last separator, or nothing
      when the path holds no separator. */
  function Parent(p: string): (r: Option<string>)
    ensures r.None? <==> '/' !in p
    ensures r.Some? ==> |r.value| < |p| && r.value == p[..|r.value|] && p[|r.value|] == '/'
    ensures r.Some? ==> '/' !in p[|r.value| + 1..]
  {
    if p == [] then None
    else if p[|p| - 1] == '/' then Some(p[..|p| - 1])
    else
      var r := Parent(p[..|p| - 1]);
      assert r.Some? ==> p[|r.value| + 1..] == p[..|p| - 1][|r.value| + 1..] + [p[|p| - 1]];
      assert r.None? ==> p == p[..|p| - 1] + [p[|p| - 1]];
      r
  }

  /** The parent of a child whose name holds no separator is the directory it was joined onto. */
  lemma ParentOfJoin(dir: string, name: string)
    requires '/' !in name
    ensures Parent(Join(dir, name)) == Some(dir)
  {
    var p := Join(dir, name);
    assert p[|dir|] == '/';
    assert Parent(p).value == p[..|dir|] == dir;
  }
}
