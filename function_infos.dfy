/** getFunctionInfos: one FuncInfo per function extent per profile. Locating a
    profile's source file (findFile) and parsing it are collaborators passed in
    as functions; each may fail, and the first failure aborts the whole pass. */
module FunctionInfos {
  import opened Profiles
  import opened Matcher
  import opened FuncFinder

  /** An operation that returns a value or fails with an error message. */
  datatype Result<T> = Ok(value: T) | Err(message: string)

  /** funcInfo: the coverage decision for one function. */
  datatype FuncInfo = FuncInfo(
    fileName: string,
    functionName: string,
    functionStartLine: int,
    functionEndLine: int,
    isCovered: bool)

  /** A profile's source file once located (path) and parsed (funcs). */
  datatype SourceFile = SourceFile(path: string, funcs: seq<FuncExtent>)

  /** findFile on the profile's file name, then findFuncs on the located path. */
  function Resolve(p: Profile, findFile: string -> Result<string>, parseFile: string -> Result<seq<Node>>)
    : Result<SourceFile>
  {
    match findFile(p.fileName)
    case Err(m) => Err(m)
    case Ok(path) =>
      match parseFile(path)
      case Err(m) => Err(m)
      case Ok(nodes) => Ok(SourceFile(path, FuncDecls(nodes)))
  }

  /** The record for function `f` of the file at `path`, profiled by `p`. */
  function InfoOf(path: string, f: FuncExtent, p: Profile): FuncInfo {
    FuncInfo(path, f.name, f.startLine, f.endLine, ScanResult(f, p.blocks) > 0)
  }

  /** The records of one profile's functions, in declaration order. */
  function ProfileInfos(path: string, funcs: seq<FuncExtent>, p: Profile): seq<FuncInfo> {
    if funcs == [] then []
    else ProfileInfos(path, funcs[..|funcs| - 1], p) + [InfoOf(path, funcs[|funcs| - 1], p)]
  }

  /** The records of all profiles, in profile order, or the first failure. */
  function AllInfos(ps: seq<Profile>, findFile: string -> Result<string>, parseFile: string -> Result<seq<Node>>)
    : Result<seq<FuncInfo>>
  {
    if ps == [] then Ok([])
    else
      match AllInfos(ps[..|ps| - 1], findFile, parseFile)
      case Err(m) => Err(m)
      case Ok(xs) =>
        match Resolve(ps[|ps| - 1], findFile, parseFile)
        case Err(m) => Err(m)
        case Ok(sf) => Ok(xs + ProfileInfos(sf.path, sf.funcs, ps[|ps| - 1]))
  }

  /** The extents found for a profile (none when its file cannot be resolved). */
  function FuncsOf(p: Profile, findFile: string -> Result<string>, parseFile: string -> Result<seq<Node>>)
    : seq<FuncExtent>
  {
    match Resolve(p, findFile, parseFile)
    case Ok(sf) => sf.funcs
    case Err(_) => []
  }

  /** How many extents the profiles' files declare in all. */
  function ExtentCount(ps: seq<Profile>, findFile: string -> Result<string>, parseFile: string -> Result<seq<Node>>)
    : nat
  {
    if ps == [] then 0
    else ExtentCount(ps[..|ps| - 1], findFile, parseFile) + |FuncsOf(ps[|ps| - 1], findFile, parseFile)|
  }

  /** getFunctionInfos: for each profile, locate and parse its file, then append
      one record per function extent with isCovered = (coverage > 0). */
  method GetFunctionInfos(profiles: seq<Profile>, findFile: string -> Result<string>,
                          parseFile: string -> Result<seq<Node>>)
    returns (r: Result<seq<FuncInfo>>)
    ensures r == AllInfos(profiles, findFile, parseFile)
  {
    var funcInfos: seq<FuncInfo> := [];
    for i := 0 to |profiles|
      invariant AllInfos(profiles[..i], findFile, parseFile) == Ok(funcInfos)
    {
      var profile := profiles[i];
      assert profiles[..i + 1][..i] == profiles[..i];
      var file := findFile(profile.fileName);
      if file.Err? {
        AllInfosErrPersists(profiles, i + 1, findFile, parseFile);
        return Err(file.message);
      }
      var nodes := parseFile(file.value);
      if nodes.Err? {
        AllInfosErrPersists(profiles, i + 1, findFile, parseFile);
        return Err(nodes.message);
      }
      var funcs := FindFuncs(file.value, nodes.value);
      ghost var before := funcInfos;
      // One record per extent, matched against this profile's blocks.
      for k := 0 to |funcs|
        invariant funcInfos == before + ProfileInfos(file.value, funcs[..k], profile)
      {
        var f := funcs[k];
        assert funcs[..k + 1][..k] == funcs[..k];
        var c := f.Coverage(profile);
        funcInfos := funcInfos + [FuncInfo(file.value, f.name, f.startLine, f.endLine, c > 0)];
      }
      assert funcs[..|funcs|] == funcs;
    }
    assert profiles[..|profiles|] == profiles;
    r := Ok(funcInfos);
  }

  /** A failure on a prefix of the profiles is the result for all of them. */
  lemma {:induction false} AllInfosErrPersists(ps: seq<Profile>, i: nat,
      findFile: string -> Result<string>, parseFile: string -> Result<seq<Node>>)
    requires i <= |ps|
    requires AllInfos(ps[..i], findFile, parseFile).Err?
    ensures AllInfos(ps, findFile, parseFile) == AllInfos(ps[..i], findFile, parseFile)
    decreases |ps| - i
  {
    if i < |ps| {
      var ps' := ps[..|ps| - 1];
      assert ps'[..i] == ps[..i];
      AllInfosErrPersists(ps', i, findFile, parseFile);
    } else {
      assert ps[..i] == ps;
    }
  }

  /** The records of one profile: one per extent, in order, each covered
      exactly when the matcher credits the function with a statement. */
  lemma {:induction false} ProfileInfosAt(path: string, funcs: seq<FuncExtent>, p: Profile)
    ensures |ProfileInfos(path, funcs, p)| == |funcs|
    ensures forall k :: 0 <= k < |funcs| ==> ProfileInfos(path, funcs, p)[k] == InfoOf(path, funcs[k], p)
  {
    if funcs != [] {
      var init := funcs[..|funcs| - 1];
      ProfileInfosAt(path, init, p);
      forall k | 0 <= k < |init| ensures init[k] == funcs[k] { }
    }
  }

  /** The pass fails exactly when some profile's file cannot be located or
      parsed, and then with the error of the first such profile. */
  lemma {:induction false} AllInfosFailsIff(ps: seq<Profile>,
      findFile: string -> Result<string>, parseFile: string -> Result<seq<Node>>)
    ensures AllInfos(ps, findFile, parseFile).Err? <==>
      exists i :: 0 <= i < |ps| && Resolve(ps[i], findFile, parseFile).Err?
    ensures AllInfos(ps, findFile, parseFile).Err? ==>
      exists i :: 0 <= i < |ps| && Resolve(ps[i], findFile, parseFile).Err?
        && AllInfos(ps, findFile, parseFile).message == Resolve(ps[i], findFile, parseFile).message
        && forall j :: 0 <= j < i ==> Resolve(ps[j], findFile, parseFile).Ok?
  {
    if ps != [] {
      var init := ps[..|ps| - 1];
      AllInfosFailsIff(init, findFile, parseFile);
      forall j | 0 <= j < |init| ensures init[j] == ps[j] { }
    }
  }

  /** The records a profile contributes (none when its file cannot be resolved). */
  function FileInfos(p: Profile, findFile: string -> Result<string>, parseFile: string -> Result<seq<Node>>)
    : seq<FuncInfo>
  {
    match Resolve(p, findFile, parseFile)
    case Ok(sf) => ProfileInfos(sf.path, sf.funcs, p)
    case Err(_) => []
  }

  /** The records of each profile, one list per profile. */
  function PerFile(ps: seq<Profile>, findFile: string -> Result<string>, parseFile: string -> Result<seq<Node>>)
    : (r: seq<seq<FuncInfo>>)
    ensures |r| == |ps|
  {
    seq(|ps|, j requires 0 <= j < |ps| => FileInfos(ps[j], findFile, parseFile))
  }

  /** The concatenation of a list of lists. */
  function Flatten(xss: seq<seq<FuncInfo>>): seq<FuncInfo> {
    if xss == [] then [] else Flatten(xss[..|xss| - 1]) + xss[|xss| - 1]
  }

  /** Element k of list i sits after the elements of the lists before i. */
  lemma {:induction false} FlattenAt(xss: seq<seq<FuncInfo>>, i: nat, k: nat)
    requires i < |xss| && k < |xss[i]|
    ensures |Flatten(xss[..i])| + k < |Flatten(xss)|
    ensures Flatten(xss)[|Flatten(xss[..i])| + k] == xss[i][k]
  {
    var init := xss[..|xss| - 1];
    if i < |xss| - 1 {
      assert init[..i] == xss[..i] && init[i] == xss[i];
      FlattenAt(init, i, k);
    } else {
      assert xss[..i] == init;
    }
  }

  /** A successful pass returns the records of every profile, concatenated in order. */
  lemma {:induction false} AllInfosIsConcat(ps: seq<Profile>,
      findFile: string -> Result<string>, parseFile: string -> Result<seq<Node>>)
    requires AllInfos(ps, findFile, parseFile).Ok?
    ensures AllInfos(ps, findFile, parseFile).value == Flatten(PerFile(ps, findFile, parseFile))
  {
    if ps != [] {
      var init := ps[..|ps| - 1];
      AllInfosIsConcat(init, findFile, parseFile);
      assert PerFile(ps, findFile, parseFile)[..|ps| - 1] == PerFile(init, findFile, parseFile);
    }
  }

  /** The records of the first i profiles number the extents of those profiles. */
  lemma {:induction false} PerFileLength(ps: seq<Profile>,
      findFile: string -> Result<string>, parseFile: string -> Result<seq<Node>>)
    ensures |Flatten(PerFile(ps, findFile, parseFile))| == ExtentCount(ps, findFile, parseFile)
  {
    if ps != [] {
      var init, last := ps[..|ps| - 1], ps[|ps| - 1];
      PerFileLength(init, findFile, parseFile);
      assert PerFile(ps, findFile, parseFile)[..|ps| - 1] == PerFile(init, findFile, parseFile);
      match Resolve(last, findFile, parseFile)
      case Ok(sf) => ProfileInfosAt(sf.path, sf.funcs, last);
      case Err(_) =>
    }
  }

  /** On success every profile's file was located and parsed. */
  lemma {:induction false} AllInfosOkResolves(ps: seq<Profile>,
      findFile: string -> Result<string>, parseFile: string -> Result<seq<Node>>, i: nat)
    requires AllInfos(ps, findFile, parseFile).Ok? && i < |ps|
    ensures Resolve(ps[i], findFile, parseFile).Ok?
  {
    var init := ps[..|ps| - 1];
    if i < |ps| - 1 {
      assert init[i] == ps[i];
      AllInfosOkResolves(init, findFile, parseFile, i);
    }
  }

  /** On success there is exactly one record per extent per profile, in
      profile order and then extent order: the record of extent k of profile
      i's file sits right after the records of the profiles before i and of
      the extents before k, and is InfoOf that extent. */
  lemma {:induction false} AllInfosAt(ps: seq<Profile>,
      findFile: string -> Result<string>, parseFile: string -> Result<seq<Node>>, i: nat, k: nat)
    requires AllInfos(ps, findFile, parseFile).Ok?
    requires i < |ps| && k < |FuncsOf(ps[i], findFile, parseFile)|
    ensures Resolve(ps[i], findFile, parseFile).Ok?
    ensures |AllInfos(ps, findFile, parseFile).value| == ExtentCount(ps, findFile, parseFile)
    ensures ExtentCount(ps[..i], findFile, parseFile) + k < ExtentCount(ps, findFile, parseFile)
    ensures AllInfos(ps, findFile, parseFile).value[ExtentCount(ps[..i], findFile, parseFile) + k]
      == InfoOf(Resolve(ps[i], findFile, parseFile).value.path, FuncsOf(ps[i], findFile, parseFile)[k], ps[i])
  {
    AllInfosOkResolves(ps, findFile, parseFile, i);
    AllInfosLength(ps, findFile, parseFile);
    AllInfosIsConcat(ps, findFile, parseFile);
    PerFileAt(ps, findFile, parseFile, i, k);
    PerFilePrefixLength(ps, findFile, parseFile, i);
    RecordPlace(ps, findFile, parseFile, i, k, PerFile(ps, findFile, parseFile),
                InfoOf(Resolve(ps[i], findFile, parseFile).value.path, FuncsOf(ps[i], findFile, parseFile)[k], ps[i]));
  }

  /** The index step of AllInfosAt, for any split of the records into per-profile lists. */
  lemma {:induction false} RecordPlace(ps: seq<Profile>,
      findFile: string -> Result<string>, parseFile: string -> Result<seq<Node>>, i: nat, k: nat,
      xss: seq<seq<FuncInfo>>, x: FuncInfo)
    requires AllInfos(ps, findFile, parseFile).Ok? && i < |ps|
    requires AllInfos(ps, findFile, parseFile).value == Flatten(xss) && i < |xss|
    requires |Flatten(xss[..i])| == ExtentCount(ps[..i], findFile, parseFile)
    requires k < |xss[i]| && xss[i][k] == x
    ensures ExtentCount(ps[..i], findFile, parseFile) + k < |AllInfos(ps, findFile, parseFile).value|
    ensures AllInfos(ps, findFile, parseFile).value[ExtentCount(ps[..i], findFile, parseFile) + k] == x
  {
    FlattenPlace(AllInfos(ps, findFile, parseFile).value, xss, ExtentCount(ps[..i], findFile, parseFile), i, k, x);
  }

  /** FlattenAt, restated for a known offset and element. */
  lemma {:induction false} FlattenPlace(all: seq<FuncInfo>, xss: seq<seq<FuncInfo>>, offset: int, i: nat, k: nat,
                                         x: FuncInfo)
    requires all == Flatten(xss) && i < |xss| && offset == |Flatten(xss[..i])|
    requires k < |xss[i]| && xss[i][k] == x
    ensures offset + k < |all| && all[offset + k] == x
  {
    FlattenAt(xss, i, k);
  }

  /** The list of a resolved profile holds the record of each of its extents. */
  lemma {:induction false} PerFileAt(ps: seq<Profile>,
      findFile: string -> Result<string>, parseFile: string -> Result<seq<Node>>, i: nat, k: nat)
    requires i < |ps| && Resolve(ps[i], findFile, parseFile).Ok? && k < |FuncsOf(ps[i], findFile, parseFile)|
    ensures k < |PerFile(ps, findFile, parseFile)[i]|
    ensures PerFile(ps, findFile, parseFile)[i][k]
      == InfoOf(Resolve(ps[i], findFile, parseFile).value.path, FuncsOf(ps[i], findFile, parseFile)[k], ps[i])
  {
    var sf := Resolve(ps[i], findFile, parseFile).value;
    assert FuncsOf(ps[i], findFile, parseFile) == sf.funcs;
    ProfileInfosAt(sf.path, sf.funcs, ps[i]);
  }

  /** The lists of the first i profiles hold as many records as those profiles have extents. */
  lemma {:induction false} PerFilePrefixLength(ps: seq<Profile>,
      findFile: string -> Result<string>, parseFile: string -> Result<seq<Node>>, i: nat)
    requires i <= |ps|
    ensures |Flatten(PerFile(ps, findFile, parseFile)[..i])| == ExtentCount(ps[..i], findFile, parseFile)
  {
    PerFileLength(ps[..i], findFile, parseFile);
    assert PerFile(ps, findFile, parseFile)[..i] == PerFile(ps[..i], findFile, parseFile);
  }

  /** On success there is one record per extent. */
  lemma {:induction false} AllInfosLength(ps: seq<Profile>,
      findFile: string -> Result<string>, parseFile: string -> Result<seq<Node>>)
    requires AllInfos(ps, findFile, parseFile).Ok?
    ensures |AllInfos(ps, findFile, parseFile).value| == ExtentCount(ps, findFile, parseFile)
  {
    if ps != [] {
      var last := ps[|ps| - 1];
      var sf := Resolve(last, findFile, parseFile).value;
      ProfileInfosAt(sf.path, sf.funcs, last);
      AllInfosLength(ps[..|ps| - 1], findFile, parseFile);
    }
  }
}
