/** The fixed roster of business units (constants.ts) and the
    `Array.prototype.find` lookup by id that every consumer uses. */
module Constants {
  import opened Types

  const Entities: seq<Entity> := [
    Entity("mz-farm", "Chicoa", "Mozambique", Farm),
    Entity("zm-farm", "Kariba Harvest", "Zambia", Farm),
    Entity("zw-farm", "Lake Harvest", "Zimbabwe", Farm),
    Entity("zw-dist", "Lake Harvest Distribution", "Zimbabwe", Distribution),
    Entity("mw-dist", "Pende", "Malawi", Distribution)
  ]

  /** Entry `i` is the first entry of `table` with that id. */
  predicate FirstWith(table: seq<Entity>, i: nat, id: string)
  {
    i < |table| && table[i].id == id && forall k :: 0 <= k < i ==> table[k].id != id
  }

  /** `table.findIndex(e => e.id === id)`: the first entry with that id, or
      `None` when no entry has it. */
  function FindIndex(table: seq<Entity>, id: string): (r: Option<nat>)
    ensures r.Some? ==> r.value < |table| && table[r.value].id == id
    ensures r.Some? ==> forall j :: 0 <= j < r.value ==> table[j].id != id
    ensures r.None? ==> forall j :: 0 <= j < |table| ==> table[j].id != id
  {
    if |table| == 0 then None
    else if table[0].id == id then Some(0)
    else
      match FindIndex(table[1..], id)
      case None => None
      case Some(k) => Some(k + 1)
  }

  /** The roster's ids are pairwise distinct, so a lookup by the id of entry
      `i` finds entry `i` itself. */
  lemma FindOwnId(i: nat)
    requires i < |Entities|
    ensures FindIndex(Entities, Entities[i].id) == Some(i)
  {
    var r := FindIndex(Entities, Entities[i].id);
    assert r.Some?;
    assert forall a, b :: 0 <= a < b < |Entities| ==> Entities[a].id != Entities[b].id;
  }

  /** No roster name holds a line break. */
  lemma RosterNamesOneLine(i: nat)
    requires i < |Entities|
    ensures '\n' !in Entities[i].name
  {
  }
}
