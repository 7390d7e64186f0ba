/** The two string operations the driver applies to paths: joining a file
    name under the output directory, and the URL test on a resume path. */
module Paths {

  /** Python's `str.startswith`. */
  predicate StartsWith(s: string, prefix: string) {
    |prefix| <= |s| && s[..|prefix|] == prefix
  }

  /** The directory part that a joined path begins with: nothing for the
      empty directory (the current directory), the directory itself when it
      already ends in a separator, and the directory plus a separator
      otherwise. */
  function DirPrefix(dir: string): (p: string)
    ensures dir == "" ==> p == ""
    ensures dir != "" ==> |dir| <= |p| && p[..|dir|] == dir && p[|p| - 1] == '/'
    ensures dir != "" && dir[|dir| - 1] == '/' ==> p == dir
    ensures dir != "" && dir[|dir| - 1] != '/' ==> p == dir + "/"
  {
    if dir == "" then ""
    else if dir[|dir| - 1] == '/' then dir
    else dir + "/"
  }

  /** `str(Path(dir) / name)` for a plain file name. */
  function Join(dir: string, name: string): (p: string)
    ensures |name| <= |p| && p[|p| - |name|..] == name
    ensures dir == "" ==> p == name
    ensures dir != "" ==> |dir| <= |p| && p[..|dir|] == dir
    ensures dir != "" && dir[|dir| - 1] == '/' ==> p == dir + name
    ensures dir != "" && dir[|dir| - 1] != '/' ==> p == dir + "/" + name
  {
    var d := DirPrefix(dir);
    assert (d + name)[..|dir|] == d[..|dir|];
    d + name
  }

  /** Two names joined under one directory give one path only when the
      names are the same. */
  lemma JoinInjective(dir: string, a: string, b: string)
    ensures Join(dir, a) == Join(dir, b) <==> a == b
  {
    if Join(dir, a) == Join(dir, b) {
      var d := DirPrefix(dir);
      assert a == (d + a)[|d|..];
      assert b == (d + b)[|d|..];
    }
  }

  /** The rolling checkpoint written every epoch and read by auto-resume:
      `checkpoint.pth` inside the output directory. */
  function LatestPath(outputDir: string): (p: string)
    ensures outputDir == "" ==> p == "checkpoint.pth"
    ensures outputDir != "" && outputDir[|outputDir| - 1] == '/' ==> p == outputDir + "checkpoint.pth"
    ensures outputDir != "" && outputDir[|outputDir| - 1] != '/' ==> p == outputDir + "/" + "checkpoint.pth"
  {
    Join(outputDir, "checkpoint.pth")
  }

  /** The checkpoint written on epochs that reach the best accuracy:
      `model_best.pth` inside the output directory. */
  function BestPath(outputDir: string): (p: string)
    ensures outputDir == "" ==> p == "model_best.pth"
    ensures outputDir != "" && outputDir[|outputDir| - 1] == '/' ==> p == outputDir + "model_best.pth"
    ensures outputDir != "" && outputDir[|outputDir| - 1] != '/' ==> p == outputDir + "/" + "model_best.pth"
  {
    Join(outputDir, "model_best.pth")
  }

  /** The two checkpoint files of one output directory are distinct files,
      so a best-epoch write never replaces the rolling checkpoint. */
  lemma LatestIsNotBest(outputDir: string)
    ensures LatestPath(outputDir) != BestPath(outputDir)
  {
    JoinInjective(outputDir, "checkpoint.pth", "model_best.pth");
  }

  /** The rolling checkpoint's path begins with `https` exactly when the
      output directory's name does: no separator or file-name character can
      complete the prefix. */
  lemma LatestPathScheme(outputDir: string)
    ensures StartsWith(LatestPath(outputDir), "https") <==> StartsWith(outputDir, "https")
  {
    var p := LatestPath(outputDir);
    var n := |outputDir|;
    if n >= 5 {
      assert p[..5] == outputDir[..5];
    } else if n == 0 {
      assert p[0] == 'c';
    } else if outputDir[n - 1] == '/' {
      assert p[n - 1] == '/';
    } else {
      assert p[n] == '/';
    }
  }
}
