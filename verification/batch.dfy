/**
 * The batch layer: enumeration of the (person, pose file, object)
 * configurations (`get_dynamic_configs`) and the status string each
 * training job returns (`do_train`).
 */
module BatchTrain {
  import opened Options

  /** One training job: person id, path of the SMPL pose file, object name. */
  datatype Config = Config(person: string, smplFile: string, obj: string)

  const PersonIds: seq<string> :=
    ["p081", "p082", "p083", "p084", "p085", "p086", "p087", "p088", "p089", "p090", "p091"]

  const SmplFiles: seq<string> :=
    ["s01", "s02", "s03", "s04", "s05", "s06", "s07", "s08", "s09", "s10", "s11", "s12",
     "s13", "s14", "s15", "s16", "s17", "s18", "s19", "s20", "s21", "s22", "s23", "s24", "s25", "s26",
     "s27", "s28", "s29", "s30", "s31", "s32", "s33", "s34", "s35", "s36", "s37", "s38", "s39", "s40",
     "s41", "s42", "s43", "s44", "s45"]

  const Objects: seq<string> := ["cup", "pill", "cane"]

  const SmplDir: string := "examples/data/slp3d/"

  // ---------------------------------------------------------------------
  // Pose-file paths

  /** The pose file of person p, pose s. */
  function SmplPath(p: string, s: string): string {
    SmplDir + p + "/" + s + ".pkl"
  }

  /** The path starts with the data directory, then the person and a slash, and ends with `.pkl`. */
  lemma SmplPathShape(p: string, s: string)
    ensures var path := SmplPath(p, s);
            |path| == |SmplDir| + |p| + 1 + |s| + 4
            && path[..|SmplDir|] == SmplDir
            && path[|SmplDir|..|SmplDir| + |p| + 1] == p + "/"
            && path[|path| - 4..] == ".pkl"
  {
    var path := SmplPath(p, s);
    assert path == SmplDir + (p + "/") + (s + ".pkl");
  }

  /** For one person, different pose names give different paths. */
  lemma SmplPathInjective(p: string, s1: string, s2: string)
    requires SmplPath(p, s1) == SmplPath(p, s2)
    ensures s1 == s2
  {
    var head := SmplDir + p + "/";
    assert SmplPath(p, s1) == head + s1 + ".pkl";
    assert SmplPath(p, s2) == head + s2 + ".pkl";
    assert |s1| == |s2|;
    assert s1 == SmplPath(p, s1)[|head|..|head| + |s1|];
    assert s2 == SmplPath(p, s2)[|head|..|head| + |s2|];
  }

  // ---------------------------------------------------------------------
  // The enumeration, as nested blocks

  /** The innermost loop: one configuration per object. */
  function ObjectBlock(p: string, s: string, objects: seq<string>): seq<Config> {
    if objects == [] then []
    else ObjectBlock(p, s, objects[..|objects| - 1]) + [Config(p, SmplPath(p, s), objects[|objects| - 1])]
  }

  /** The middle loop: one object block per pose file. */
  function FileBlock(p: string, files: seq<string>, objects: seq<string>): seq<Config> {
    if files == [] then []
    else FileBlock(p, files[..|files| - 1], objects) + ObjectBlock(p, files[|files| - 1], objects)
  }

  /** The outer loop: one file block per person. */
  function Configs(persons: seq<string>, files: seq<string>, objects: seq<string>): seq<Config> {
    if persons == [] then []
    else Configs(persons[..|persons| - 1], files, objects) + FileBlock(persons[|persons| - 1], files, objects)
  }

  lemma ObjectBlockStep(p: string, s: string, objects: seq<string>, l: nat)
    requires l < |objects|
    ensures ObjectBlock(p, s, objects[..l + 1]) == ObjectBlock(p, s, objects[..l]) + [Config(p, SmplPath(p, s), objects[l])]
  {
    assert objects[..l + 1][..l] == objects[..l];
  }

  lemma FileBlockStep(p: string, files: seq<string>, objects: seq<string>, j: nat)
    requires j < |files|
    ensures FileBlock(p, files[..j + 1], objects) == FileBlock(p, files[..j], objects) + ObjectBlock(p, files[j], objects)
  {
    assert files[..j + 1][..j] == files[..j];
  }

  lemma ConfigsStep(persons: seq<string>, files: seq<string>, objects: seq<string>, i: nat)
    requires i < |persons|
    ensures Configs(persons[..i + 1], files, objects) == Configs(persons[..i], files, objects) + FileBlock(persons[i], files, objects)
  {
    assert persons[..i + 1][..i] == persons[..i];
  }

  /**
   * The innermost loop of `get_dynamic_configs`: for person p and pose s,
   * append one configuration per object.
   */
  method AppendObjectConfigs(configs: seq<Config>, p: string, s: string, objects: seq<string>)
    returns (extended: seq<Config>)
    ensures extended == configs + ObjectBlock(p, s, objects)
  {
    extended := configs;
    var l := 0;
    while l < |objects|
      invariant 0 <= l <= |objects|
      invariant extended == configs + ObjectBlock(p, s, objects[..l])
    {
      var o := objects[l];
      var smplFile := SmplDir + p + "/" + s + ".pkl";
      assert smplFile == SmplPath(p, s);
      ObjectBlockStep(p, s, objects, l);
      extended := extended + [Config(p, smplFile, o)];
      l := l + 1;
    }
    assert objects[..l] == objects;
  }

  /**
   * The middle loop of `get_dynamic_configs`: for person p, append the
   * configurations of every pose file.
   */
  method AppendPersonConfigs(configs: seq<Config>, p: string, files: seq<string>, objects: seq<string>)
    returns (extended: seq<Config>)
    ensures extended == configs + FileBlock(p, files, objects)
  {
    extended := configs;
    var j := 0;
    while j < |files|
      invariant 0 <= j <= |files|
      invariant extended == configs + FileBlock(p, files[..j], objects)
    {
      var s := files[j];
      extended := AppendObjectConfigs(extended, p, s, objects);
      FileBlockStep(p, files, objects, j);
      j := j + 1;
    }
    assert files[..j] == files;
  }

  /** `get_dynamic_configs` over the given lists: the outer loop, over persons. */
  method EnumerateConfigs(persons: seq<string>, files: seq<string>, objects: seq<string>)
    returns (configs: seq<Config>)
    ensures configs == Configs(persons, files, objects)
  {
    configs := [];
    var i := 0;
    while i < |persons|
      invariant 0 <= i <= |persons|
      invariant configs == Configs(persons[..i], files, objects)
    {
      var p := persons[i];
      configs := AppendPersonConfigs(configs, p, files, objects);
      ConfigsStep(persons, files, objects, i);
      i := i + 1;
    }
    assert persons[..i] == persons;
  }

  /** The configured lists hold 11 persons, 45 pose files and 3 objects: 1485 jobs. */
  lemma ConfiguredCount()
    ensures |Configs(PersonIds, SmplFiles, Objects)| == 1485
  {
    var n, f, o := |PersonIds|, |SmplFiles|, |Objects|;
    assert n == 11 && f == 45 && o == 3;
    ConfigsLength(PersonIds, SmplFiles, Objects);
    assert n * (f * o) == 1485;
  }

  /** `get_dynamic_configs` on the configured lists. */
  method GetDynamicConfigs() returns (configs: seq<Config>)
    ensures configs == Configs(PersonIds, SmplFiles, Objects)
    ensures |configs| == 1485
  {
    configs := EnumerateConfigs(PersonIds, SmplFiles, Objects);
    ConfiguredCount();
  }

  // ---------------------------------------------------------------------
  // Length and position of each configuration

  lemma {:induction false} MulMonotone(a: nat, b: nat, c: nat)
    requires a <= b
    ensures a * c <= b * c
  {
    if c > 0 {
      MulMonotone(a, b, c - 1);
      assert a * c == a * (c - 1) + a;
      assert b * c == b * (c - 1) + b;
    }
  }

  lemma MulStep(a: nat, b: nat)
    ensures (a + 1) * b == a * b + b
  {
  }

  /** j * o + l with j < m and l < o is below m * o. */
  lemma MixedRadixBound(j: nat, l: nat, m: nat, o: nat)
    requires j < m && l < o
    ensures j * o + l < m * o
  {
    MulMonotone(j + 1, m, o);
    assert (j + 1) * o == j * o + o;
  }

  lemma {:induction false} ObjectBlockLength(p: string, s: string, objects: seq<string>)
    ensures |ObjectBlock(p, s, objects)| == |objects|
  {
    if objects != [] {
      ObjectBlockLength(p, s, objects[..|objects| - 1]);
    }
  }

  lemma {:induction false} FileBlockLength(p: string, files: seq<string>, objects: seq<string>)
    ensures |FileBlock(p, files, objects)| == |files| * |objects|
  {
    if files != [] {
      var m := |files|;
      FileBlockLength(p, files[..m - 1], objects);
      ObjectBlockLength(p, files[m - 1], objects);
      MulStep(m - 1, |objects|);
    }
  }

  /** There are |persons| * |files| * |objects| configurations. */
  lemma {:induction false} ConfigsLength(persons: seq<string>, files: seq<string>, objects: seq<string>)
    ensures |Configs(persons, files, objects)| == |persons| * (|files| * |objects|)
  {
    if persons != [] {
      var n := |persons|;
      var block := |files| * |objects|;
      ConfigsLength(persons[..n - 1], files, objects);
      FileBlockLength(persons[n - 1], files, objects);
      MulStep(n - 1, block);
    }
  }

  lemma {:induction false} ObjectBlockAt(p: string, s: string, objects: seq<string>, l: nat)
    requires l < |objects|
    ensures l < |ObjectBlock(p, s, objects)|
    ensures ObjectBlock(p, s, objects)[l] == Config(p, SmplPath(p, s), objects[l])
  {
    var n := |objects|;
    ObjectBlockLength(p, s, objects);
    ObjectBlockLength(p, s, objects[..n - 1]);
    if l < n - 1 {
      ObjectBlockAt(p, s, objects[..n - 1], l);
    }
  }

  lemma {:induction false} FileBlockAt(p: string, files: seq<string>, objects: seq<string>, j: nat, l: nat)
    requires j < |files| && l < |objects|
    ensures j * |objects| + l < |FileBlock(p, files, objects)|
    ensures FileBlock(p, files, objects)[j * |objects| + l] == Config(p, SmplPath(p, files[j]), objects[l])
  {
    var m, o := |files|, |objects|;
    var init := files[..m - 1];
    var k := j * o + l;
    var head := FileBlock(p, init, objects);
    var tail := ObjectBlock(p, files[m - 1], objects);
    assert FileBlock(p, files, objects) == head + tail;
    FileBlockLength(p, init, objects);
    ObjectBlockLength(p, files[m - 1], objects);
    MixedRadixBound(j, l, m, o);
    MulStep(m - 1, o);
    if j < m - 1 {
      MixedRadixBound(j, l, m - 1, o);
      FileBlockAt(p, init, objects, j, l);
      assert k < |head|;
    } else {
      assert k - |head| == l;
      ObjectBlockAt(p, files[m - 1], objects, l);
    }
  }

  /**
   * Person outermost: block i of the enumeration, of |files| * |objects|
   * configurations, is person i's file block. With `FileBlockAt` and
   * `ObjectBlockAt` this places the configuration for persons[i], files[j]
   * and objects[l] at position i * (|files| * |objects|) + j * |objects| + l.
   */
  lemma {:induction false} ConfigsBlockAt(persons: seq<string>, files: seq<string>, objects: seq<string>,
                                          block: nat, i: nat, q: nat)
    requires block == |files| * |objects|
    requires i < |persons| && q < block
    ensures i * block + q < |Configs(persons, files, objects)| && q < |FileBlock(persons[i], files, objects)|
    ensures Configs(persons, files, objects)[i * block + q] == FileBlock(persons[i], files, objects)[q]
  {
    var n := |persons|;
    var init := persons[..n - 1];
    var k := i * block + q;
    var head := Configs(init, files, objects);
    var tail := FileBlock(persons[n - 1], files, objects);
    assert Configs(persons, files, objects) == head + tail;
    ConfigsLength(init, files, objects);
    FileBlockLength(persons[n - 1], files, objects);
    FileBlockLength(persons[i], files, objects);
    MixedRadixBound(i, q, n, block);
    MulStep(n - 1, block);
    if i < n - 1 {
      MixedRadixBound(i, q, n - 1, block);
      ConfigsBlockAt(init, files, objects, block, i, q);
      assert k < |head|;
    } else {
      assert k - |head| == q;
    }
  }

  // ---------------------------------------------------------------------
  // Which configurations occur, and how often

  /** c combines a person of the list, a pose file of that person from the list, and an object of the list. */
  predicate InProduct(c: Config, persons: seq<string>, files: seq<string>, objects: seq<string>) {
    c.person in persons && c.obj in objects && exists s :: s in files && c.smplFile == SmplPath(c.person, s)
  }

  lemma {:induction false} ObjectBlockMembers(p: string, s: string, objects: seq<string>, c: Config)
    ensures c in ObjectBlock(p, s, objects) <==> c.person == p && c.smplFile == SmplPath(p, s) && c.obj in objects
  {
    if objects != [] {
      var n := |objects|;
      assert objects == objects[..n - 1] + [objects[n - 1]];
      ObjectBlockMembers(p, s, objects[..n - 1], c);
    }
  }

  lemma {:induction false} FileBlockMembers(p: string, files: seq<string>, objects: seq<string>, c: Config)
    ensures c in FileBlock(p, files, objects)
        <==> c.person == p && c.obj in objects && exists s :: s in files && c.smplFile == SmplPath(p, s)
  {
    if files != [] {
      var m := |files|;
      var init := files[..m - 1];
      assert files == init + [files[m - 1]];
      FileBlockMembers(p, init, objects, c);
      ObjectBlockMembers(p, files[m - 1], objects, c);
      if exists s :: s in files && c.smplFile == SmplPath(p, s) {
        var s :| s in files && c.smplFile == SmplPath(p, s);
        if s != files[m - 1] {
          assert s in init;
        }
      }
    }
  }

  /** A configuration occurs in the enumeration exactly when it is in the product of the three lists. */
  lemma {:induction false} ConfigsMembers(persons: seq<string>, files: seq<string>, objects: seq<string>, c: Config)
    ensures c in Configs(persons, files, objects) <==> InProduct(c, persons, files, objects)
  {
    if persons != [] {
      var n := |persons|;
      var init := persons[..n - 1];
      assert persons == init + [persons[n - 1]];
      ConfigsMembers(init, files, objects, c);
      FileBlockMembers(persons[n - 1], files, objects, c);
    }
  }

  /** No element occurs twice. */
  predicate Distinct<T(==)>(s: seq<T>) {
    forall a, b :: 0 <= a < b < |s| ==> s[a] != s[b]
  }

  lemma DistinctAppend<T>(a: seq<T>, b: seq<T>)
    requires Distinct(a) && Distinct(b)
    requires forall x :: x in a ==> x !in b
    ensures Distinct(a + b)
  {
    forall u, v | 0 <= u < v < |a + b|
      ensures (a + b)[u] != (a + b)[v]
    {
      if u < |a| && v >= |a| {
        assert (a + b)[u] in a && (a + b)[v] in b;
      }
    }
  }

  lemma {:induction false} ObjectBlockDistinct(p: string, s: string, objects: seq<string>)
    requires Distinct(objects)
    ensures Distinct(ObjectBlock(p, s, objects))
  {
    if objects != [] {
      var n := |objects|;
      var init := objects[..n - 1];
      ObjectBlockDistinct(p, s, init);
      var last := Config(p, SmplPath(p, s), objects[n - 1]);
      ObjectBlockMembers(p, s, init, last);
      DistinctAppend(ObjectBlock(p, s, init), [last]);
    }
  }

  lemma {:induction false} FileBlockDistinct(p: string, files: seq<string>, objects: seq<string>)
    requires Distinct(files) && Distinct(objects)
    ensures Distinct(FileBlock(p, files, objects))
  {
    if files != [] {
      var m := |files|;
      var init := files[..m - 1];
      var last := files[m - 1];
      FileBlockDistinct(p, init, objects);
      ObjectBlockDistinct(p, last, objects);
      forall c | c in FileBlock(p, init, objects)
        ensures c !in ObjectBlock(p, last, objects)
      {
        FileBlockMembers(p, init, objects, c);
        ObjectBlockMembers(p, last, objects, c);
        var s :| s in init && c.smplFile == SmplPath(p, s);
        if c.smplFile == SmplPath(p, last) {
          SmplPathInjective(p, s, last);
        }
      }
      DistinctAppend(FileBlock(p, init, objects), ObjectBlock(p, last, objects));
    }
  }

  lemma {:induction false} ConfigsDistinct(persons: seq<string>, files: seq<string>, objects: seq<string>)
    requires Distinct(persons) && Distinct(files) && Distinct(objects)
    ensures Distinct(Configs(persons, files, objects))
  {
    if persons != [] {
      var n := |persons|;
      var init := persons[..n - 1];
      var last := persons[n - 1];
      ConfigsDistinct(init, files, objects);
      FileBlockDistinct(last, files, objects);
      forall c | c in Configs(init, files, objects)
        ensures c !in FileBlock(last, files, objects)
      {
        ConfigsMembers(init, files, objects, c);
        FileBlockMembers(last, files, objects, c);
      }
      DistinctAppend(Configs(init, files, objects), FileBlock(last, files, objects));
    }
  }

  lemma {:induction false} DistinctOccursOnce<T>(s: seq<T>, x: T)
    requires Distinct(s) && x in s
    ensures multiset(s)[x] == 1
  {
    var n := |s|;
    var init := s[..n - 1];
    assert s == init + [s[n - 1]];
    if x == s[n - 1] {
      assert x !in init;
    } else {
      DistinctOccursOnce(init, x);
    }
  }

  /**
   * With duplicate-free lists, every (person, pose file, object)
   * combination occurs exactly once, and nothing else occurs.
   */
  lemma ConfigsExactlyOnce(persons: seq<string>, files: seq<string>, objects: seq<string>, c: Config)
    requires Distinct(persons) && Distinct(files) && Distinct(objects)
    ensures multiset(Configs(persons, files, objects))[c] == if InProduct(c, persons, files, objects) then 1 else 0
  {
    ConfigsMembers(persons, files, objects, c);
    if InProduct(c, persons, files, objects) {
      ConfigsDistinct(persons, files, objects);
      DistinctOccursOnce(Configs(persons, files, objects), c);
    }
  }

  // ---------------------------------------------------------------------
  // The status string of a job

  const StatusPrefix: string := "Done training for "

  /** `do_train`'s return value; the training call itself is not modelled. */
  function DoTrain(config: Config): (status: string)
    ensures |status| == |StatusPrefix| + |config.person| + |config.smplFile| + |config.obj| + 2
    ensures status[..|StatusPrefix|] == StatusPrefix
    ensures status[|status| - |config.obj|..] == config.obj
  {
    var Config(p, s, o) := config;
    StatusPrefix + p + " " + s + " " + o
  }

  /** Splits at the first space: the text before it and the text after it. */
  function SplitAtSpace(s: string): Option<(string, string)> {
    if s == [] then None
    else if s[0] == ' ' then Some(([], s[1..]))
    else match SplitAtSpace(s[1..])
         case None => None
         case Some((before, after)) => Some(([s[0]] + before, after))
  }

  lemma {:induction false} SplitAtSpaceJoin(a: string, b: string)
    requires ' ' !in a
    ensures SplitAtSpace(a + " " + b) == Some((a, b))
  {
    if a != [] {
      assert (a + " " + b)[1..] == a[1..] + " " + b;
      SplitAtSpaceJoin(a[1..], b);
      assert [a[0]] + a[1..] == a;
    }
  }

  /** Reads a status string back into the configuration it reports. */
  function ParseStatus(status: string): Option<Config> {
    if |status| < |StatusPrefix| || status[..|StatusPrefix|] != StatusPrefix then None
    else match SplitAtSpace(status[|StatusPrefix|..])
         case None => None
         case Some((p, rest)) =>
           match SplitAtSpace(rest)
           case None => None
           case Some((s, o)) => Some(Config(p, s, o))
  }

  /** When person and pose path contain no space, the status string determines the job. */
  lemma StatusRoundTrip(config: Config)
    requires ' ' !in config.person && ' ' !in config.smplFile
    ensures ParseStatus(DoTrain(config)) == Some(config)
  {
    var Config(p, s, o) := config;
    var status := DoTrain(config);
    assert status[|StatusPrefix|..] == p + " " + (s + " " + o);
    SplitAtSpaceJoin(p, s + " " + o);
    SplitAtSpaceJoin(s, o);
  }

  /** Each job enumerated from space-free person ids and pose names reports a status that determines it. */
  lemma StatusesRoundTrip(persons: seq<string>, files: seq<string>, objects: seq<string>, c: Config)
    requires forall p :: p in persons ==> ' ' !in p
    requires forall s :: s in files ==> ' ' !in s
    requires c in Configs(persons, files, objects)
    ensures ParseStatus(DoTrain(c)) == Some(c)
  {
    ConfigsMembers(persons, files, objects, c);
    var s :| s in files && c.smplFile == SmplPath(c.person, s);
    assert ' ' !in SmplDir;
    assert c.smplFile == SmplDir + c.person + "/" + s + ".pkl";
    StatusRoundTrip(c);
  }
}
