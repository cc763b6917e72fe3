/** The records the villager simulation keeps per entity key. */
module BitterEntities {
  import opened Keys

  /** A villager: its external id, its own key and the tick it last ate. */
  datatype Villager = Villager(id: nat, key: Key, lastAte: nat)

  /** A farm: its external id, its own key and the tick it last grew. */
  datatype Farm = Farm(id: nat, key: Key, lastGrew: nat)

  /** A grave left where a villager died. */
  datatype DeathMarker = DeathMarker(key: Key)
}
