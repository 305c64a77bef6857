/** The scope helpers: lock level and set name per scope, and the guard against the unimplemented scope. */
module Scope {
  import opened Wrappers
  import opened Errors

  /** LOCAL: one data centre; GLOBAL: replicated across data centres. */
  datatype MagazineScope = Local | Global

  /** The lock manager's reach: one data centre, or across data centres. */
  datatype LockLevel = DC | XDC

  /** `resolveLockLevel`: LOCAL locks within the data centre, GLOBAL across data centres. */
  function ResolveLockLevel(scope: MagazineScope): (level: LockLevel)
    ensures level == DC <==> scope == Local
    ensures level == XDC <==> scope == Global
  {
    match scope
    case Local => DC
    case Global => XDC
  }

  /** The exception `validateMagazineScope` throws for GLOBAL. */
  const GlobalScopeNotImplemented: MagazineException :=
    MagazineException(NotImplemented, "Global scope is not implemented.", None)

  /**
    `validateMagazineScope`: None when the call returns normally, the thrown exception
    otherwise.
   */
  function ValidateMagazineScope(scope: MagazineScope): (r: Option<MagazineException>)
    ensures r.Some? <==> scope == Global
    ensures r.Some? ==> r.value.code == NotImplemented
  {
    if scope == Global then Some(GlobalScopeNotImplemented) else None
  }

  /** `resolveSetName`: LOCAL sets are named `<farmId>_<setName>`, GLOBAL sets keep their name. */
  function ResolveSetName(setName: string, farmId: string, scope: MagazineScope): (name: string)
    ensures scope == Global ==> name == setName
    ensures scope == Local ==> |name| > |farmId| && name[..|farmId|] == farmId && name[|farmId|..] == "_" + setName
  {
    match scope
    case Local => farmId + "_" + setName
    case Global => setName
  }

  /**
    Local set names keep farms apart: for farm ids without an underscore, two
    (set, farm) pairs share a local set name only when they are the same pair.
   */
  lemma LocalSetNamesSeparateFarms(set1: string, farm1: string, set2: string, farm2: string)
    requires '_' !in farm1 && '_' !in farm2
    ensures ResolveSetName(set1, farm1, Local) == ResolveSetName(set2, farm2, Local) <==>
              set1 == set2 && farm1 == farm2
  {
    var n1 := ResolveSetName(set1, farm1, Local);
    var n2 := ResolveSetName(set2, farm2, Local);
    FirstUnderscore(farm1, set1);
    FirstUnderscore(farm2, set2);
    if n1 == n2 {
      assert |farm1| == |farm2|;
      assert farm1 == n1[..|farm1|] && farm2 == n2[..|farm2|];
      assert set1 == n1[|farm1| + 1..] && set2 == n2[|farm2| + 1..];
    }
  }

  /** In `farm + "_" + rest` with no underscore in farm, the first underscore ends the farm id. */
  lemma FirstUnderscore(farm: string, rest: string)
    requires '_' !in farm
    ensures var n := farm + "_" + rest;
            n[|farm|] == '_' && forall i :: 0 <= i < |farm| ==> n[i] != '_'
  {
    var n := farm + "_" + rest;
    forall i | 0 <= i < |farm|
      ensures n[i] != '_'
    {
      assert n[i] == farm[i];
    }
  }
}
