/**
  The magazine manager: a registry of magazines by identifier. `refresh` registers
  each magazine of a list under its identifier, in list order; `getMagazine` looks one
  up and fails with MAGAZINE_NOT_FOUND for an unknown identifier.
 */
module Manager {
  import opened Wrappers
  import opened Errors
  import opened Magazines

  /** The registry after registering `magazines` in order: a later magazine replaces an earlier one of the same identifier. */
  function Refreshed(registry: map<string, Magazine>, magazines: seq<Magazine>): map<string, Magazine>
    decreases |magazines|
  {
    if |magazines| == 0 then registry
    else Refreshed(registry[magazines[0].magazineIdentifier := magazines[0]], magazines[1..])
  }

  /** The last magazine of the list with the given identifier, if any. */
  function LastWithId(magazines: seq<Magazine>, id: string): (r: Option<Magazine>)
    ensures r.Some? ==> r.value in magazines && r.value.magazineIdentifier == id
    ensures r.None? <==> forall i :: 0 <= i < |magazines| ==> magazines[i].magazineIdentifier != id
    decreases |magazines|
  {
    if |magazines| == 0 then None
    else
      var last := magazines[|magazines| - 1];
      if last.magazineIdentifier == id then Some(last)
      else
        var r := LastWithId(magazines[..|magazines| - 1], id);
        assert forall i :: 0 <= i < |magazines| - 1 ==> magazines[..|magazines| - 1][i] == magazines[i];
        r
  }

  /** Registering one more magazine at the end of the list. */
  lemma {:induction false} RefreshedSnoc(registry: map<string, Magazine>, magazines: seq<Magazine>, m: Magazine)
    ensures Refreshed(registry, magazines + [m]) == Refreshed(registry, magazines)[m.magazineIdentifier := m]
    decreases |magazines|
  {
    if |magazines| == 0 {
      assert magazines + [m] == [m];
    } else {
      assert (magazines + [m])[1..] == magazines[1..] + [m];
      RefreshedSnoc(registry[magazines[0].magazineIdentifier := magazines[0]], magazines[1..], m);
    }
  }

  /**
    After a refresh, an identifier of the list maps to the last magazine with that
    identifier, and every other identifier keeps the entry it had (or stays absent).
   */
  lemma {:induction false} RefreshedEntries(registry: map<string, Magazine>, magazines: seq<Magazine>, id: string)
    ensures var after := Refreshed(registry, magazines);
            match LastWithId(magazines, id)
            case Some(m) => id in after && after[id] == m
            case None => (id in after <==> id in registry) && (id in registry ==> after[id] == registry[id])
    decreases |magazines|
  {
    if |magazines| > 0 {
      var init := magazines[..|magazines| - 1];
      var last := magazines[|magazines| - 1];
      assert magazines == init + [last];
      RefreshedSnoc(registry, init, last);
      RefreshedEntries(registry, init, id);
    }
  }

  /** The identifiers registered after a refresh: the earlier ones and those of the list. */
  lemma RefreshedDomain(registry: map<string, Magazine>, magazines: seq<Magazine>)
    ensures Refreshed(registry, magazines).Keys ==
              registry.Keys + set i | 0 <= i < |magazines| :: magazines[i].magazineIdentifier
  {
    var after := Refreshed(registry, magazines);
    var listed := set i | 0 <= i < |magazines| :: magazines[i].magazineIdentifier;
    forall id
      ensures id in after <==> id in registry || id in listed
    {
      RefreshedEntries(registry, magazines, id);
      if LastWithId(magazines, id).Some? {
        var m := LastWithId(magazines, id).value;
        var i :| 0 <= i < |magazines| && magazines[i] == m;
        assert id == magazines[i].magazineIdentifier;
      }
    }
  }

  /** The exception for an identifier without a magazine. */
  function NotFound(id: string): MagazineException
  {
    MagazineException(MagazineNotFound, "Magazine not found for identifier " + id, None)
  }

  /** `getMagazine` on a registry. */
  function Lookup(registry: map<string, Magazine>, id: string): (r: Result<Magazine, MagazineException>)
    ensures r.Ok? <==> id in registry
    ensures r.Ok? ==> r.value == registry[id]
    ensures r.Err? ==> r.error.code == MagazineNotFound && r.error.message == "Magazine not found for identifier " + id
  {
    if id in registry then Ok(registry[id]) else Err(NotFound(id))
  }

  /** After a refresh, every magazine of the list is found, unless a later one took its identifier. */
  lemma RefreshedFindsLast(registry: map<string, Magazine>, magazines: seq<Magazine>, id: string)
    requires exists i :: 0 <= i < |magazines| && magazines[i].magazineIdentifier == id
    ensures Lookup(Refreshed(registry, magazines), id) == Ok(LastWithId(magazines, id).value)
  {
    RefreshedEntries(registry, magazines, id);
  }

  class MagazineManager {
    const clientId: string
    var magazineMap: map<string, Magazine>

    constructor(clientId: string)
      ensures this.clientId == clientId && magazineMap == map[]
    {
      this.clientId := clientId;
      magazineMap := map[];
    }

    /** `refresh`: put each magazine of the list into the map under its identifier, in order. */
    method Refresh(magazines: seq<Magazine>)
      modifies this
      ensures magazineMap == Refreshed(old(magazineMap), magazines)
    {
      for i := 0 to |magazines|
        invariant magazineMap == Refreshed(old(magazineMap), magazines[..i])
      {
        RefreshedSnoc(old(magazineMap), magazines[..i], magazines[i]);
        assert magazines[..i + 1] == magazines[..i] + [magazines[i]];
        magazineMap := magazineMap[magazines[i].magazineIdentifier := magazines[i]];
      }
      assert magazines[..|magazines|] == magazines;
    }

    /** `getMagazine`: the registered magazine, or MAGAZINE_NOT_FOUND. */
    method GetMagazine(id: string) returns (r: Result<Magazine, MagazineException>)
      ensures r == Lookup(magazineMap, id)
    {
      if id in magazineMap {
        return Ok(magazineMap[id]);
      }
      return Err(NotFound(id));
    }
  }
}
