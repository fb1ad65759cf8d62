/** The records of a parsed statement-coverage profile (the output of
    golang.org/x/tools/cover.ParseProfiles), which the core takes as input. */
module Profiles {

  /** A source position: 1-based line and column, as both go/token and the
      coverage profile report them. */
  datatype Position = Position(line: int, col: int)

  /** Lexicographic order on (line, column): `a` is at or before `b`. */
  predicate PosLe(a: Position, b: Position) {
    a.line < b.line || (a.line == b.line && a.col <= b.col)
  }

  /** One statement block of a profile, with the fields of cover.ProfileBlock. */
  datatype ProfileBlock = ProfileBlock(
    startLine: int, startCol: int,
    endLine: int, endCol: int,
    numStmt: int,
    count: int)
  {
    function Start(): Position { Position(startLine, startCol) }
    function End(): Position { Position(endLine, endCol) }
  }

  /** The coverage record of one source file (cover.Profile). */
  datatype Profile = Profile(fileName: string, mode: string, blocks: seq<ProfileBlock>)

  /** The order in which the profile parser delivers the blocks of one file:
      ascending (not necessarily strictly) by start position. */
  predicate SortedByStart(blocks: seq<ProfileBlock>) {
    forall i, j :: 0 <= i < j < |blocks| ==> PosLe(blocks[i].Start(), blocks[j].Start())
  }

  /** Every block holds a non-negative number of statements, as the parser produces. */
  predicate NonNegativeStmts(blocks: seq<ProfileBlock>) {
    forall i :: 0 <= i < |blocks| ==> blocks[i].numStmt >= 0
  }

  /** NonNegativeStmts, for every profile of a run. */
  predicate AllNonNegativeStmts(profiles: seq<Profile>) {
    forall i :: 0 <= i < |profiles| ==> NonNegativeStmts(profiles[i].blocks)
  }
}
