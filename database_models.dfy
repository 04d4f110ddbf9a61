/**
 * The records the stores hold. Timestamps are the source's 64-bit integers, carried as
 * unbounded integers (no arithmetic is done on them here).
 */
module DbModels {
  import opened Ids

  datatype User = User(userId: ObjectId, username: string, password: seq<byte>, salt: seq<byte>)

  datatype Message = Message(messageId: ObjectId, content: string, timestamp: int, author: User)

  /** A named room; `owner` is the hex id of the creating user. */
  datatype Yodel = Yodel(yodelId: ObjectId, name: string, owner: string)

  /** `User{Username: name}`: every other field at its zero value. */
  function NamedUser(username: string): (u: User)
    ensures u.username == username && u.userId == NilObjectId
    ensures u.password == [] && u.salt == []
  {
    User(NilObjectId, username, [], [])
  }
}
