/**
 The path arithmetic of the directory build: which directory entries are
 compilation units, and where the three artifacts of a unit go under the build
 directory. Paths are strings with '/' as the separator.
 */
module Paths {

  /** Position of the last `c` in `s`, or -1 (`std::string::npos`) when there is none. */
  function LastIndexOf(s: string, c: char): (k: int)
    ensures -1 <= k < |s|
    ensures k >= 0 ==> s[k] == c
    ensures forall i :: k < i < |s| ==> s[i] != c
    decreases |s|
  {
    if |s| == 0 then -1
    else if s[|s| - 1] == c then |s| - 1
    else
      var k := LastIndexOf(s[..|s| - 1], c);
      assert forall i :: k < i < |s| - 1 ==> s[i] == s[..|s| - 1][i];
      k
  }

  predicate EndsWith(s: string, suffix: string) {
    |suffix| <= |s| && s[|s| - |suffix|..] == suffix
  }

  /** `path::filename()`: the text after the last '/'. */
  function FileName(p: string): (name: string)
    ensures EndsWith(p, name)
  {
    p[LastIndexOf(p, '/') + 1..]
  }

  /** The file name is the longest end of the path without a '/': it holds none, and a '/' precedes it. */
  lemma FileNameShape(p: string)
    ensures var name := FileName(p);
      && EndsWith(p, name)
      && (forall i :: 0 <= i < |name| ==> name[i] != '/')
      && (|name| < |p| ==> p[|p| - |name| - 1] == '/')
  {
  }

  /**
   `path::extension()` of a file name: from its last '.' on, except that "."
   and "..", names without a '.', and names whose only '.' is the first
   character have none.
   */
  function Extension(name: string): string {
    if name == "." || name == ".." then ""
    else
      var k := LastIndexOf(name, '.');
      if k <= 0 then "" else name[k..]
  }

  /**
   An extension, when there is one, starts with '.', holds no other '.', and
   ends the name with something before it.
   */
  lemma ExtensionShape(name: string)
    ensures var ext := Extension(name);
      && (ext == "" || (ext[0] == '.' && EndsWith(name, ext) && |ext| < |name|))
      && (forall i :: 0 < i < |ext| ==> ext[i] != '.')
  {
  }

  /** A directory entry: its path and whether it is a regular file. */
  datatype Entry = Entry(path: string, regular: bool)

  /** The filter of both directory passes: regular files with extension exactly ".gc". */
  predicate IsUnit(e: Entry) {
    e.regular && Extension(FileName(e.path)) == ".gc"
  }

  /**
   A path has extension ".gc" exactly when it ends with ".gc" and its file
   name holds something before that suffix: "a.gc" and "..gc" are units,
   ".gc" and "a.gcx" are not.
   */
  lemma UnitExtension(p: string)
    ensures Extension(FileName(p)) == ".gc" <==> EndsWith(p, ".gc") && |FileName(p)| > 3
  {
    var name := FileName(p);
    var k := LastIndexOf(name, '.');
    if Extension(name) == ".gc" {
      assert name != "." && name != ".." && k > 0 && name[k..] == ".gc";
      assert |name| == k + 3;
      assert name[|name| - 3..] == ".gc";
      assert p[|p| - 3..] == name[|name| - 3..];
    }
    if EndsWith(p, ".gc") && |name| > 3 {
      assert name[|name| - 3..] == p[|p| - 3..];
      assert name[|name| - 3] == '.' && name[|name| - 2] == 'g' && name[|name| - 1] == 'c';
      assert k == |name| - 3;
    }
  }

  /** `relativePath.substr(0, relativePath.find_last_of('.'))`: everything before the last '.'. */
  function StripExtension(rel: string): (stem: string)
    ensures |stem| <= |rel| && stem == rel[..|stem|]
  {
    var k := LastIndexOf(rel, '.');
    if k < 0 then rel else rel[..k]
  }

  /**
   The stem ends just before the last '.' of the path, and is the whole path
   when it holds no '.'.
   */
  lemma StripExtensionShape(rel: string)
    ensures var stem := StripExtension(rel);
      && (|stem| < |rel| ==> rel[|stem|] == '.')
      && (forall i :: |stem| < i < |rel| ==> rel[i] != '.')
      && (|stem| == |rel| ==> forall i :: 0 <= i < |rel| ==> rel[i] != '.')
  {
  }

  /**
   `std::filesystem::relative(path, srcDir)` for the paths a walk of `srcDir`
   yields: the path with `srcDir + "/"` taken off its front; any other path is
   kept as it is.
   */
  function Relative(path: string, srcDir: string): (rel: string)
    ensures EndsWith(path, rel)
  {
    if Below(srcDir, path) then path[|srcDir + "/"|..] else path
  }

  /** `path` lies inside the directory `dir`: it starts with `dir + "/"`. */
  predicate Below(dir: string, path: string) {
    |dir + "/"| <= |path| && path[..|dir + "/"|] == dir + "/"
  }

  /** Putting `srcDir + "/"` back in front of the relative path of a path below `srcDir` gives the path; any other path is its own relative path. */
  lemma RelativeBelow(path: string, srcDir: string)
    ensures Below(srcDir, path) ==> srcDir + "/" + Relative(path, srcDir) == path
    ensures !Below(srcDir, path) ==> Relative(path, srcDir) == path
  {
  }

  lemma RelativeOfChild(srcDir: string, rel: string)
    ensures Relative(srcDir + "/" + rel, srcDir) == rel
  {
    var path := srcDir + "/" + rel;
    assert path[..|srcDir + "/"|] == srcDir + "/";
    assert path[|srcDir + "/"|..] == rel;
  }

  /** An artifact path: the kind directory under the build directory, the unit's stem, the artifact extension. */
  function Artifact(kindDir: string, rel: string, ext: string): string {
    kindDir + StripExtension(rel) + ext
  }

  function IrPath(buildDir: string, rel: string): string {
    Artifact(buildDir + "/ir/", rel, ".ll")
  }

  function IrGcMapPath(buildDir: string, rel: string): string {
    Artifact(buildDir + "/ir_gc_map/", rel, ".json")
  }

  function ObjPath(buildDir: string, rel: string): string {
    Artifact(buildDir + "/obj/", rel, ".o")
  }

  /** The stem of a path ending in ".gc", as every unit's does, is the path without the ".gc". */
  lemma UnitStem(rel: string)
    requires EndsWith(rel, ".gc")
    ensures StripExtension(rel) + ".gc" == rel
    ensures StripExtension(rel) == rel[..|rel| - 3]
  {
    var k := LastIndexOf(rel, '.');
    assert rel[|rel| - 3] == rel[|rel| - 3..][0] == '.';
    assert rel[|rel| - 2] == rel[|rel| - 3..][1] == 'g';
    assert rel[|rel| - 1] == rel[|rel| - 3..][2] == 'c';
    assert k == |rel| - 3;
    assert rel[..k] + ".gc" == rel;
  }

  /**
   For a unit "dir/name.gc" the three artifacts are "dir/name.ll" under
   `buildDir/ir`, "dir/name.json" under `buildDir/ir_gc_map`, and "dir/name.o"
   under `buildDir/obj`.
   */
  lemma UnitArtifacts(buildDir: string, rel: string)
    requires Extension(FileName(rel)) == ".gc"
    ensures IrPath(buildDir, rel) == buildDir + "/ir/" + rel[..|rel| - 3] + ".ll"
    ensures IrGcMapPath(buildDir, rel) == buildDir + "/ir_gc_map/" + rel[..|rel| - 3] + ".json"
    ensures ObjPath(buildDir, rel) == buildDir + "/obj/" + rel[..|rel| - 3] + ".o"
  {
    UnitExtension(rel);
    UnitStem(rel);
  }

  /** The character right after `buildDir + "/"` and the two after it tell the three kinds apart. */
  lemma ArtifactsDistinct(buildDir: string, rel: string)
    ensures IrPath(buildDir, rel) != IrGcMapPath(buildDir, rel)
    ensures IrPath(buildDir, rel) != ObjPath(buildDir, rel)
    ensures IrGcMapPath(buildDir, rel) != ObjPath(buildDir, rel)
  {
    var n := |buildDir|;
    var ir := IrPath(buildDir, rel);
    var map_ := IrGcMapPath(buildDir, rel);
    var obj := ObjPath(buildDir, rel);
    assert ir[n + 1] == 'i' && obj[n + 1] == 'o' && map_[n + 1] == 'i';
    assert ir[n + 3] == '/' && map_[n + 3] == '_';
  }

  lemma Middle(x: string, y: string, z: string)
    ensures (x + y + z)[|x|..|x| + |y|] == y
  {
  }

  /**
   Two paths ending in ".gc" (every unit's does) with the same artifact path
   of a kind are the same path: no artifact is shared.
   */
  lemma ArtifactInjective(kindDir: string, ext: string, rel1: string, rel2: string)
    requires EndsWith(rel1, ".gc") && EndsWith(rel2, ".gc")
    requires Artifact(kindDir, rel1, ext) == Artifact(kindDir, rel2, ext)
    ensures rel1 == rel2
  {
    UnitStem(rel1);
    UnitStem(rel2);
    var s1 := StripExtension(rel1);
    var s2 := StripExtension(rel2);
    Middle(kindDir, s1, ext);
    Middle(kindDir, s2, ext);
  }

  /** `LastIndexOf` over a concatenation: in the second part when it holds `c`, else in the first. */
  lemma {:induction false} LastIndexOfAppend(a: string, b: string, c: char)
    ensures LastIndexOf(a + b, c) == if LastIndexOf(b, c) >= 0 then |a| + LastIndexOf(b, c) else LastIndexOf(a, c)
    decreases |b|
  {
    if |b| == 0 {
      assert a + b == a;
    } else if b[|b| - 1] != c {
      assert (a + b)[..|a + b| - 1] == a + b[..|b| - 1];
      LastIndexOfAppend(a, b[..|b| - 1], c);
    }
  }

  /** Below a directory, a path has the file name of its part below it. */
  lemma FileNameBelow(prefix: string, rel: string)
    requires |prefix| > 0 && prefix[|prefix| - 1] == '/'
    ensures FileName(prefix + rel) == FileName(rel)
  {
    LastIndexOfAppend(prefix, rel, '/');
    var k := LastIndexOf(rel, '/');
    if k >= 0 {
      assert (prefix + rel)[|prefix| + k + 1..] == rel[k + 1..];
    } else {
      assert (prefix + rel)[|prefix|..] == rel;
    }
  }
}
