/** Identities shared by the store, the messages and the commands. */
module Persons {

  /** Unique id numbers for each person; a 64-bit unsigned integer in the server. */
  type PersonId = nat

  /** Room identifiers. The room module is not part of this model; ids are taken as naturals. */
  type RoomId = nat

  /** A person known to the store: the id it is filed under and the name it is shown by. */
  datatype Person = Person(id: PersonId, name: string)
}
