/** Google's One Billion Word benchmark: resolves a subset name and a list
    of partition indices to file paths under the data root, then builds a
    `TextFile` over them. The data root is a parameter. */
module OneBillionWord {
  import opened Wrappers
  import opened Strings
  import TextFiles

  const Corpus := "1-billion-word"
  const TrainingDir := "training-monolingual.tokenized.shuffled"
  const HeldoutDir := "heldout-monolingual.tokenized.shuffled"
  const TrainingPrefix := "news.en-"
  const TrainingSuffix := "-of-00100"
  const HeldoutPrefix := "news.en.heldout-"
  const HeldoutSuffix := "-of-00050"

  /** The partition indices a subset admits: 1 to 99 for training, 0 to 49
      for the held-out set. */
  predicate InRange(whichSet: string, p: int) {
    if whichSet == "training" then 1 <= p < 100 else 0 <= p < 50
  }

  /** The name of the file holding partition `p` of a subset. */
  function FileName(whichSet: string, p: nat): string {
    if whichSet == "training" then TrainingPrefix + Format05(p) + TrainingSuffix
    else HeldoutPrefix + Format05(p) + HeldoutSuffix
  }

  /** The directory holding a subset's files, under the data root. */
  function Directory(dataPath: string, whichSet: string): string {
    PathJoin(PathJoin(dataPath, Corpus),
             if whichSet == "training" then TrainingDir else HeldoutDir)
  }

  function PartitionPath(dataPath: string, whichSet: string, p: nat): string {
    PathJoin(Directory(dataPath, whichSet), FileName(whichSet, p))
  }

  /** The validation and path building of the constructor: an unknown
      subset or an out-of-range index is refused; otherwise there is one
      path per index, in the order given. */
  function Files(dataPath: string, whichSet: string, partitions: seq<int>): (r: Result<seq<string>>)
    ensures r.Ok? <==>
      && (whichSet == "training" || whichSet == "heldout")
      && forall i :: 0 <= i < |partitions| ==> InRange(whichSet, partitions[i])
    ensures r.Err? ==> r.error == ValueError
    ensures r.Ok? ==>
      && |r.value| == |partitions|
      && forall i :: 0 <= i < |partitions| ==>
           partitions[i] >= 0 && r.value[i] == PartitionPath(dataPath, whichSet, partitions[i])
  {
    if whichSet != "training" && whichSet != "heldout" then Err(ValueError)
    else if exists i :: 0 <= i < |partitions| && !InRange(whichSet, partitions[i]) then Err(ValueError)
    else Ok(seq(|partitions|, i requires 0 <= i < |partitions| =>
                  PartitionPath(dataPath, whichSet, partitions[i])))
  }

  /** The constructor: the checks and paths above, then the `TextFile`
      constructor on those paths with the remaining arguments. */
  function New(dataPath: string, whichSet: string, partitions: seq<int>,
               dictionary: map<string, int>,
               bosToken: Option<string>, eosToken: Option<string>,
               unkToken: string, level: string,
               preprocess: Option<string -> string>): (r: Result<TextFiles.TextFile>)
    ensures var files := Files(dataPath, whichSet, partitions);
      && (files.Err? ==> r == Err(ValueError))
      && (files.Ok? ==> r == TextFiles.New(files.value, dictionary, bosToken, eosToken,
                                           unkToken, level, preprocess))
  {
    match Files(dataPath, whichSet, partitions)
    case Err(e) => Err(e)
    case Ok(files) => TextFiles.New(files, dictionary, bosToken, eosToken, unkToken, level, preprocess)
  }

  /** Every admitted index gives a file name of the fixed shape with exactly
      five zero-padded digits that read back as the index. */
  lemma FileNameShape(whichSet: string, p: nat)
    requires InRange(whichSet, p)
    ensures var digits := Format05(p);
      && |digits| == 5 && AllDigits(digits) && ParseDecimal(digits) == p
      && FileName(whichSet, p) ==
           if whichSet == "training" then TrainingPrefix + digits + TrainingSuffix
           else HeldoutPrefix + digits + HeldoutSuffix
  {
    Format05Width(p);
    Format05RoundTrip(p);
  }

  /** The whole path: the data root, `1-billion-word`, the subset's
      directory and the file name, separated by `/`; no `/` is added after
      a data root that is empty or already ends with one. */
  lemma PartitionPathShape(dataPath: string, whichSet: string, p: nat)
    ensures var dir, name := if whichSet == "training" then TrainingDir else HeldoutDir, FileName(whichSet, p);
      var root := if dataPath == [] || dataPath[|dataPath| - 1] == '/' then dataPath else dataPath + "/";
      PartitionPath(dataPath, whichSet, p) == root + Corpus + "/" + dir + "/" + name
  {
    var dir := if whichSet == "training" then TrainingDir else HeldoutDir;
    var name := FileName(whichSet, p);
    assert IsComponent(Corpus);
    assert IsComponent(dir);
    assert IsComponent(name) by {
      var suffix := if whichSet == "training" then TrainingSuffix else HeldoutSuffix;
      assert name[0] == 'n';
      assert name[|name| - |suffix|..] == suffix;
      assert name[|name| - 1] == suffix[|suffix| - 1];
    }
    PathJoinComponents(dataPath, Corpus, dir, name);
  }

  /** A path ends with its partition's file name. */
  lemma PathEndsWithFileName(dataPath: string, whichSet: string, p: nat)
    ensures var path, name := PartitionPath(dataPath, whichSet, p), FileName(whichSet, p);
      |path| >= |name| && path[|path| - |name|..] == name
  {
  }

  /** Two different partitions of one subset never share a file. */
  lemma PathsDistinct(dataPath: string, whichSet: string, p: nat, q: nat)
    requires InRange(whichSet, p) && InRange(whichSet, q) && p != q
    ensures PartitionPath(dataPath, whichSet, p) != PartitionPath(dataPath, whichSet, q)
  {
    FileNameShape(whichSet, p);
    FileNameShape(whichSet, q);
    var dir := Directory(dataPath, whichSet);
    var a, b := FileName(whichSet, p), FileName(whichSet, q);
    assert |a| == |b|;
    var k := if whichSet == "training" then |TrainingPrefix| else |HeldoutPrefix|;
    assert a[k..k + 5] == Format05(p);
    assert b[k..k + 5] == Format05(q);
    assert a != b;
    PathEndsWithFileName(dataPath, whichSet, p);
    PathEndsWithFileName(dataPath, whichSet, q);
  }

  /** Each resolved file is the one of its partition, and different
      partitions resolve to different files. */
  lemma FilesOnePerPartition(dataPath: string, whichSet: string, partitions: seq<int>, i: nat, j: nat)
    requires Files(dataPath, whichSet, partitions).Ok?
    requires i < |partitions| && j < |partitions|
    ensures var files := Files(dataPath, whichSet, partitions).value;
      partitions[i] != partitions[j] ==> files[i] != files[j]
  {
    if partitions[i] != partitions[j] {
      PathsDistinct(dataPath, whichSet, partitions[i], partitions[j]);
    }
  }
}
