/** The values a trigger script hands to the host: its own strings, numbers and
    booleans, and host objects that the script passes along without looking
    inside them. */
module Values {

  type Uuid = nat
  type WorldId = nat

  datatype Value =
    | Str(s: string)
    | Num(n: real)            // java.lang.Number, integral or floating
    | Bool(b: bool)
      // a Location; serializable says whether its class implements ConfigurationSerializable
    | Location(world: WorldId, x: real, y: real, z: real, serializable: bool)
    | Serializable(id: nat)   // any other ConfigurationSerializable object
    | PlayerRef(uuid: Uuid)   // a player taken from an event's cause
    | EntityRef(id: nat)      // any other entity taken from an event's cause
    | Opaque(id: nat)         // any other host object
}
