/** The fixture program testData/main.go as a profiled run of its test
    (testData/main_test.go) would record it: init and getSomeField executed,
    main, setSomeFiled and the empty someFunction not. */
module Scenario {
  import opened Profiles
  import opened LineCoverage
  import opened Matcher
  import opened FuncFinder
  import opened FunctionInfos
  import opened Report

  const InitExtent := FuncExtent("init", 9, 1, 11, 2)
  const MainExtent := FuncExtent("main", 13, 1, 20, 2)
  const GetSomeFieldExtent := FuncExtent("getSomeField", 22, 1, 25, 2)
  const SetSomeFiledExtent := FuncExtent("setSomeFiled", 27, 1, 31, 2)
  const SomeFunctionExtent := FuncExtent("someFunction", 33, 1, 34, 2)

  /** One block per function body, ending one column past its closing brace.
      A body with statements starts its block at its opening brace; the
      empty body of someFunction starts one column past it. */
  const Blocks := [
    ProfileBlock(9, 13, 11, 2, 1, 1),
    ProfileBlock(13, 13, 20, 2, 2, 0),
    ProfileBlock(22, 49, 25, 2, 2, 1),
    ProfileBlock(27, 71, 31, 2, 3, 0),
    ProfileBlock(33, 22, 34, 2, 0, 0)]

  /** The fixture's blocks, taken apart one block at a time. */
  lemma {:induction false} BlocksSplit()
    ensures Blocks == [Blocks[0]] + ([Blocks[1]] + ([Blocks[2]] + ([Blocks[3]] + ([Blocks[4]] + []))))
  {
  }

  /** init: its own executed block counts, then the scan stops at main's block;
      the block ending exactly at init's end still belongs to it. */
  lemma {:induction false} FixtureInit()
    ensures ScanResult(InitExtent, Blocks) == 1
  {
    var b := Blocks;
    BlocksSplit();
    ScanResultCons(InitExtent, b[0], [b[1]] + ([b[2]] + ([b[3]] + ([b[4]] + []))));
    ScanResultCons(InitExtent, b[1], [b[2]] + ([b[3]] + ([b[4]] + [])));
  }

  /** main: init's block ends before it and its own block was not executed. */
  lemma {:induction false} FixtureMain()
    ensures ScanResult(MainExtent, Blocks) == 0
  {
    var b := Blocks;
    BlocksSplit();
    ScanResultCons(MainExtent, b[0], [b[1]] + ([b[2]] + ([b[3]] + ([b[4]] + []))));
    ScanResultCons(MainExtent, b[1], [b[2]] + ([b[3]] + ([b[4]] + [])));
    ScanResultCons(MainExtent, b[2], [b[3]] + ([b[4]] + []));
  }

  /** getSomeField: two earlier blocks skipped, its own executed block counted. */
  lemma {:induction false} FixtureGetSomeField()
    ensures ScanResult(GetSomeFieldExtent, Blocks) == 2
  {
    var b := Blocks;
    BlocksSplit();
    ScanResultCons(GetSomeFieldExtent, b[0], [b[1]] + ([b[2]] + ([b[3]] + ([b[4]] + []))));
    ScanResultCons(GetSomeFieldExtent, b[1], [b[2]] + ([b[3]] + ([b[4]] + [])));
    ScanResultCons(GetSomeFieldExtent, b[2], [b[3]] + ([b[4]] + []));
    ScanResultCons(GetSomeFieldExtent, b[3], [b[4]] + []);
  }

  /** setSomeFiled: its block was not executed. */
  lemma {:induction false} FixtureSetSomeFiled()
    ensures ScanResult(SetSomeFiledExtent, Blocks) == 0
  {
    var b := Blocks;
    BlocksSplit();
    ScanResultCons(SetSomeFiledExtent, b[0], [b[1]] + ([b[2]] + ([b[3]] + ([b[4]] + []))));
    ScanResultCons(SetSomeFiledExtent, b[1], [b[2]] + ([b[3]] + ([b[4]] + [])));
    ScanResultCons(SetSomeFiledExtent, b[2], [b[3]] + ([b[4]] + []));
    ScanResultCons(SetSomeFiledExtent, b[3], [b[4]] + []);
    ScanResultCons(SetSomeFiledExtent, b[4], []);
  }

  /** someFunction: the empty body is reported as not covered. */
  lemma {:induction false} FixtureSomeFunction()
    ensures ScanResult(SomeFunctionExtent, Blocks) == 0
  {
    var b := Blocks;
    BlocksSplit();
    ScanResultCons(SomeFunctionExtent, b[0], [b[1]] + ([b[2]] + ([b[3]] + ([b[4]] + []))));
    ScanResultCons(SomeFunctionExtent, b[1], [b[2]] + ([b[3]] + ([b[4]] + [])));
    ScanResultCons(SomeFunctionExtent, b[2], [b[3]] + ([b[4]] + []));
    ScanResultCons(SomeFunctionExtent, b[3], [b[4]] + []);
    ScanResultCons(SomeFunctionExtent, b[4], []);
  }

  /** Line coverage of the fixture: 3 of its 8 statements were executed. */
  lemma {:induction false} FixtureLines()
    ensures CoveredStmtsOf(Blocks) == 3
    ensures StmtsOf(Blocks) == 8
  {
    var b := Blocks;
    assert b[..1][..0] == [];
    assert CoveredStmtsOf(b[..1]) == 1 && StmtsOf(b[..1]) == 1;
    assert b[..2][..1] == b[..1];
    assert CoveredStmtsOf(b[..2]) == 1 && StmtsOf(b[..2]) == 3;
    assert b[..3][..2] == b[..2];
    assert CoveredStmtsOf(b[..3]) == 3 && StmtsOf(b[..3]) == 5;
    assert b[..4][..3] == b[..3];
    assert CoveredStmtsOf(b[..4]) == 3 && StmtsOf(b[..4]) == 8;
    assert b[..5][..4] == b[..4];
    assert b[..5] == b;
  }
}

module ScenarioReport {
  import opened Profiles
  import opened Matcher
  import opened FuncFinder
  import opened FunctionInfos
  import opened Report
  import opened Scenario

  const Path := "testData/main.go"

  /** The nodes ast.Walk meets in the fixture, declarations among others. */
  const Nodes := [
    OtherNode, OtherNode,
    FuncDecl("init", Position(9, 1), Position(11, 2)), OtherNode,
    FuncDecl("main", Position(13, 1), Position(20, 2)), OtherNode,
    FuncDecl("getSomeField", Position(22, 1), Position(25, 2)),
    FuncDecl("setSomeFiled", Position(27, 1), Position(31, 2)),
    FuncDecl("someFunction", Position(33, 1), Position(34, 2))]

  /** Every profiled file of the fixture resolves to main.go in testData. */
  function FindFixtureFile(name: string): Result<string> { Ok(Path) }

  /** Parsing succeeds for main.go only. */
  function ParseFixture(path: string): Result<seq<Node>> {
    if path == Path then Ok(Nodes) else Err("no such file")
  }

  const Funcs := [InitExtent, MainExtent, GetSomeFieldExtent, SetSomeFiledExtent, SomeFunctionExtent]

  const Infos := [
    FuncInfo(Path, "init", 9, 11, true),
    FuncInfo(Path, "main", 13, 20, false),
    FuncInfo(Path, "getSomeField", 22, 25, true),
    FuncInfo(Path, "setSomeFiled", 27, 31, false),
    FuncInfo(Path, "someFunction", 33, 34, false)]

  /** The visitor keeps the five declarations, in source order. */
  lemma {:induction false} FixtureFuncs()
    ensures FuncDecls(Nodes) == Funcs
  {
    var n := Nodes;
    assert n[..1][..0] == [];
    assert FuncDecls(n[..1]) == [];
    assert n[..2][..1] == n[..1];
    assert FuncDecls(n[..2]) == [];
    assert n[..3][..2] == n[..2];
    assert FuncDecls(n[..3]) == [InitExtent];
    assert n[..4][..3] == n[..3];
    assert FuncDecls(n[..4]) == [InitExtent];
    assert n[..5][..4] == n[..4];
    assert FuncDecls(n[..5]) == [InitExtent, MainExtent];
    assert n[..6][..5] == n[..5];
    assert FuncDecls(n[..6]) == [InitExtent, MainExtent];
    assert n[..7][..6] == n[..6];
    assert FuncDecls(n[..7]) == [InitExtent, MainExtent, GetSomeFieldExtent];
    assert n[..8][..7] == n[..7];
    assert FuncDecls(n[..8]) == [InitExtent, MainExtent, GetSomeFieldExtent, SetSomeFiledExtent];
    assert n[..9][..8] == n[..8];
    assert n[..9] == n;
  }

  /** The fixture's profile. */
  const FixtureProfile := Profile(Path, "set", Blocks)

  /** One record per declaration, covered exactly for init and getSomeField. */
  lemma {:induction false} FixtureProfileInfos(p: Profile, funcs: seq<FuncExtent>)
    requires p == FixtureProfile && funcs == Funcs
    ensures ProfileInfos(Path, funcs, p) == Infos
  {
    ProfileInfosAt(Path, funcs, p);
    FixtureRecords(p, funcs, ProfileInfos(Path, funcs, p));
  }

  /** Five records, each the expected one, are the expected list. */
  lemma {:induction false} FixtureRecords(p: Profile, funcs: seq<FuncExtent>, infos: seq<FuncInfo>)
    requires p == FixtureProfile && funcs == Funcs && |infos| == 5
    requires forall k :: 0 <= k < 5 ==> infos[k] == InfoOf(Path, funcs[k], p)
    ensures infos == Infos
  {
    FixtureRecord(p, funcs[0], 0, infos);
    FixtureRecord(p, funcs[1], 1, infos);
    FixtureRecord(p, funcs[2], 2, infos);
    FixtureRecord(p, funcs[3], 3, infos);
    FixtureRecord(p, funcs[4], 4, infos);
    SameFive(infos, Infos);
  }

  /** Two five-element lists that agree at every index are equal. */
  lemma {:induction false} SameFive(a: seq<FuncInfo>, b: seq<FuncInfo>)
    requires |a| == 5 && |b| == 5
    requires a[0] == b[0] && a[1] == b[1] && a[2] == b[2] && a[3] == b[3] && a[4] == b[4]
    ensures a == b
  {
    assert a == [a[0], a[1], a[2], a[3], a[4]];
  }

  /** One expected record of the fixture. */
  lemma {:induction false} FixtureRecord(p: Profile, f: FuncExtent, k: nat, infos: seq<FuncInfo>)
    requires p == FixtureProfile && k < 5 && f == Funcs[k]
    requires |infos| == 5 && infos[k] == InfoOf(Path, f, p)
    ensures infos[k] == Infos[k]
  {
    assert p.blocks == Blocks;
    if k == 0 { FixtureInit(); }
    if k == 1 { FixtureMain(); }
    if k == 2 { FixtureGetSomeField(); }
    if k == 3 { FixtureSetSomeFiled(); }
    if k == 4 { FixtureSomeFunction(); }
  }

  /** The records of the whole pass over the fixture. */
  lemma {:induction false} FixtureInfos()
    ensures AllInfos([FixtureProfile], FindFixtureFile, ParseFixture) == Ok(Infos)
  {
    FixtureFuncs();
    assert Resolve(FixtureProfile, FindFixtureFile, ParseFixture) == Ok(SourceFile(Path, Funcs));
    FixtureProfileInfos(FixtureProfile, Funcs);
    assert [FixtureProfile][..0] == [];
    assert [] + Infos == Infos;
  }

  /** Two of the fixture's five functions are covered. */
  lemma {:induction false} FixtureCounts()
    ensures CoveredCount(Infos) == 2 && MissedCount(Infos) == 3
  {
    var s := Infos;
    assert s[..1][..0] == [];
    assert CoveredCount(s[..1]) == 1 && MissedCount(s[..1]) == 0;
    assert s[..2][..1] == s[..1];
    assert CoveredCount(s[..2]) == 1 && MissedCount(s[..2]) == 1;
    assert s[..3][..2] == s[..2];
    assert CoveredCount(s[..3]) == 2 && MissedCount(s[..3]) == 1;
    assert s[..4][..3] == s[..3];
    assert CoveredCount(s[..4]) == 2 && MissedCount(s[..4]) == 2;
    assert s[..5][..4] == s[..4];
    assert s[..5] == s;
  }

  /** A run of the whole pass on the fixture: 3 of 8 statements and 2 of 5
      functions covered. */
  method FixtureReport() returns (r: Result<Coverage>)
    ensures r == Ok(Coverage(5, 3, 3, 2))
  {
    r := BuildCoverage([FixtureProfile], FindFixtureFile, ParseFixture);
    FixtureLines();
    FixtureInfos();
    FixtureCounts();
    assert [FixtureProfile][..0] == [];
  }
}
