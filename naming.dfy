/**
 * Result-file naming: `output_<category>_<stem>.png`, where the stem is the
 * POSIX basename of the garment path cut at its first '.'.
 */
module Naming {

  /** `os.path.basename` on POSIX: the text after the last '/'. */
  function Basename(p: string): (b: string)
    ensures |b| <= |p| && b == p[|p| - |b|..]
    ensures '/' !in b
    ensures |b| < |p| ==> p[|p| - |b| - 1] == '/'
    decreases |p|
  {
    if p == [] || p[|p| - 1] == '/' then "" else Basename(p[..|p| - 1]) + [p[|p| - 1]]
  }

  /** `name.split('.')[0]`: the prefix before the first '.', or all of it. */
  function Stem(name: string): (s: string)
    ensures |s| <= |name| && s == name[..|s|]
    ensures '.' !in s
    ensures |s| < |name| ==> name[|s|] == '.'
    decreases |name|
  {
    if name == [] || name[0] == '.' then "" else [name[0]] + Stem(name[1..])
  }

  /** The stem of the garment path that names the result file. */
  function GarmentStem(garmentPath: string): (s: string)
    ensures '/' !in s && '.' !in s
  {
    Stem(Basename(garmentPath))
  }

  /**
   * The result name: `output_`, the category, `_`, the stem and `.png`, in
   * that order, so that each part can be read back out of it.
   */
  function OutputName(category: string, garmentPath: string): (name: string)
    ensures |name| == |category| + |GarmentStem(garmentPath)| + 12
    ensures name[..7] == "output_" && name[7..|category| + 7] == category
    ensures name[|category| + 7] == '_'
    ensures name[|category| + 8..|name| - 4] == GarmentStem(garmentPath)
    ensures name[|name| - 4..] == ".png"
  {
    FiveParts("output_", category, "_", GarmentStem(garmentPath), ".png");
    "output_" + category + "_" + GarmentStem(garmentPath) + ".png"
  }

  /** Any suffix free of '/' that is all of `p` or follows a '/' is the basename. */
  lemma BasenameUnique(p: string, b: string)
    requires |b| <= |p| && b == p[|p| - |b|..]
    requires '/' !in b
    requires |b| < |p| ==> p[|p| - |b| - 1] == '/'
    ensures b == Basename(p)
  {
  }

  /** Any prefix free of '.' that is all of `name` or is followed by '.' is the stem. */
  lemma StemUnique(name: string, s: string)
    requires |s| <= |name| && s == name[..|s|]
    requires '.' !in s
    requires |s| < |name| ==> name[|s|] == '.'
    ensures s == Stem(name)
  {
  }

  /** Slicing a five-part concatenation gives back each part. */
  lemma FiveParts(a: string, b: string, c: string, d: string, e: string)
    ensures var s := a + b + c + d + e;
            && |s| == |a| + |b| + |c| + |d| + |e|
            && s[..|a|] == a
            && s[|a|..|a| + |b|] == b
            && s[|a| + |b|..|a| + |b| + |c|] == c
            && s[|a| + |b| + |c|..|s| - |e|] == d
            && s[|s| - |e|..] == e
  {
  }

  /**
   * Within one category two garments share a result file exactly when their
   * stems agree: such requests overwrite each other's output.
   */
  lemma OutputNameCollision(category: string, p1: string, p2: string)
    ensures OutputName(category, p1) == OutputName(category, p2) <==> GarmentStem(p1) == GarmentStem(p2)
  {
  }

  /** The basename of `dir/name` is `name` whenever `name` holds no '/'. */
  lemma BasenameOfJoin(dir: string, name: string)
    requires '/' !in name
    ensures Basename(dir + "/" + name) == name
  {
    var p := dir + "/" + name;
    assert p[|p| - |name|..] == name;
    assert p[|p| - |name| - 1] == '/';
    BasenameUnique(p, name);
  }

  /** The stem of `head.tail` is `head` whenever `head` holds no '.'. */
  lemma StemOfSplit(head: string, tail: string)
    requires '.' !in head
    ensures Stem(head + "." + tail) == head
  {
    var n := head + "." + tail;
    assert n[..|head|] == head;
    assert n[|head|] == '.';
    StemUnique(n, head);
  }

  lemma ExampleBasename()
    ensures Basename("dir/temp_a.b.jpg") == "temp_a.b.jpg"
  {
    assert "dir/temp_a.b.jpg" == "dir" + "/" + "temp_a.b.jpg";
    BasenameOfJoin("dir", "temp_a.b.jpg");
  }

  lemma ExampleStem()
    ensures Stem("temp_a.b.jpg") == "temp_a"
  {
    assert "temp_a.b.jpg" == "temp_a" + "." + "b.jpg";
    StemOfSplit("temp_a", "b.jpg");
  }

  // The literal concatenation is checked apart from the other lemmas' facts
  // about basenames and stems, which make it costly for the solver.
  lemma ExampleName(stem: string)
    requires stem == "temp_a"
    ensures "output_" + "femme" + "_" + stem + ".png" == "output_femme_temp_a.png"
  {
  }

  /** The worked example: the directory and every extension are dropped. */
  lemma OutputNameExample()
    ensures OutputName("femme", "dir/temp_a.b.jpg") == "output_femme_temp_a.png"
  {
    ExampleBasename();
    ExampleStem();
    ExampleName(GarmentStem("dir/temp_a.b.jpg"));
  }
}
