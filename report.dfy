/** The aggregation done by the command's action: line coverage from all
    blocks, method coverage from the per-function records, combined into the
    persisted Coverage record. */
module Report {
  import opened Profiles
  import opened LineCoverage
  import opened FuncFinder
  import opened FunctionInfos

  /** The sole persisted result of a run. */
  datatype Coverage = Coverage(lineMissed: int, lineCovered: int, methodMissed: int, methodCovered: int)

  /** Number of records marked covered. */
  function CoveredCount(infos: seq<FuncInfo>): nat {
    if infos == [] then 0
    else CoveredCount(infos[..|infos| - 1]) + (if infos[|infos| - 1].isCovered then 1 else 0)
  }

  /** Number of records marked not covered. */
  function MissedCount(infos: seq<FuncInfo>): nat {
    if infos == [] then 0
    else MissedCount(infos[..|infos| - 1]) + (if infos[|infos| - 1].isCovered then 0 else 1)
  }

  /** The method-count loop: one counter or the other grows for every record. */
  method CountMethods(infos: seq<FuncInfo>) returns (methodCovered: int, methodMissed: int)
    ensures methodCovered == CoveredCount(infos)
    ensures methodMissed == MissedCount(infos)
    ensures methodCovered + methodMissed == |infos|
  {
    methodMissed, methodCovered := 0, 0;
    for i := 0 to |infos|
      invariant methodCovered == CoveredCount(infos[..i])
      invariant methodMissed == MissedCount(infos[..i])
    {
      assert infos[..i + 1][..i] == infos[..i];
      if infos[i].isCovered {
        methodCovered := methodCovered + 1;
      } else {
        methodMissed := methodMissed + 1;
      }
    }
    assert infos[..|infos|] == infos;
    CountsPartition(infos);
  }

  /** The action from the overall line count to the finished Coverage record.
      The coverage profile is already parsed; writing the record out is not modelled. */
  method BuildCoverage(profiles: seq<Profile>, findFile: string -> Result<string>,
                       parseFile: string -> Result<seq<Node>>)
    returns (r: Result<Coverage>)
    ensures r.Err? <==> AllInfos(profiles, findFile, parseFile).Err?
    ensures r.Err? ==> r.message == AllInfos(profiles, findFile, parseFile).message
    ensures r.Ok? ==>
      var infos := AllInfos(profiles, findFile, parseFile).value;
      && r.value.lineCovered == CoveredStmts(profiles)
      && r.value.lineMissed == MissedStmts(profiles)
      && r.value.lineMissed + r.value.lineCovered == TotalStmts(profiles)
      && r.value.methodCovered == CoveredCount(infos)
      && r.value.methodMissed == MissedCount(infos)
      && r.value.methodCovered + r.value.methodMissed == ExtentCount(profiles, findFile, parseFile)
  {
    // Line counts first, from every block of every profile.
    var total, covered := GetOverallCoverage(profiles);
    var coverage := Coverage(total - covered, covered, 0, 0);
    var funcInfos := GetFunctionInfos(profiles, findFile, parseFile);
    if funcInfos.Err? {
      return Err(funcInfos.message);
    }
    var methodCovered, methodMissed := CountMethods(funcInfos.value);
    AllInfosLength(profiles, findFile, parseFile);
    coverage := coverage.(methodMissed := methodMissed, methodCovered := methodCovered);
    r := Ok(coverage);
  }

  /** Every record is counted exactly once: methodCovered + methodMissed is the
      number of records. */
  lemma {:induction false} CountsPartition(infos: seq<FuncInfo>)
    ensures CoveredCount(infos) + MissedCount(infos) == |infos|
  {
    if infos != [] {
      CountsPartition(infos[..|infos| - 1]);
    }
  }

  /** methodCovered is 0 exactly when no record is marked covered. */
  lemma {:induction false} NoneCoveredIff(infos: seq<FuncInfo>)
    ensures CoveredCount(infos) == 0 <==> forall i :: 0 <= i < |infos| ==> !infos[i].isCovered
  {
    if infos != [] {
      var init := infos[..|infos| - 1];
      NoneCoveredIff(init);
      forall i | 0 <= i < |init| ensures init[i] == infos[i] { }
    }
  }

  /** methodMissed is 0 exactly when every record is marked covered. */
  lemma {:induction false} AllCoveredIff(infos: seq<FuncInfo>)
    ensures MissedCount(infos) == 0 <==> forall i :: 0 <= i < |infos| ==> infos[i].isCovered
  {
    if infos != [] {
      var init := infos[..|infos| - 1];
      AllCoveredIff(init);
      forall i | 0 <= i < |init| ensures init[i] == infos[i] { }
    }
  }

  /** The counts of two runs of records add up, so counts of separate profile
      groups can be merged. */
  lemma {:induction false} CountsAppend(a: seq<FuncInfo>, b: seq<FuncInfo>)
    ensures CoveredCount(a + b) == CoveredCount(a) + CoveredCount(b)
    ensures MissedCount(a + b) == MissedCount(a) + MissedCount(b)
    decreases |b|
  {
    if b == [] {
      assert a + b == a;
    } else {
      var b' := b[..|b| - 1];
      assert (a + b)[..|a + b| - 1] == a + b';
      assert (a + b)[|a + b| - 1] == b[|b| - 1];
      CountsAppend(a, b');
    }
  }
}
