/** The vocabulary shared by every part of the model: topics, offsets, records and the JSON
    documents they carry (kept as the values they encode). */
module Kafka {

  datatype Option<+T> = None | Some(value: T)

  datatype Result<+T, +E> = Ok(value: T) | Err(error: E)

  datatype TopicPartition = TopicPartition(topic: string, partition: int)

  datatype EpochOffset = EpochOffset(epoch: int, offset: int)

  datatype Header = Header(key: string, value: string)

  // Times are whole seconds since the zero time, midnight UTC of January 1 of year 1.
  datatype RegisterRecord = RegisterRecord(playerId: string, currency: string, value: int, time: int)

  datatype UnregisterRecord = UnregisterRecord(id: string, time: int, registerRecord: RegisterRecord)

  // Garbage is any value that is not a JSON object of the expected field types (a poison pill).
  datatype Body = RegisterBody(register: RegisterRecord) | UnregisterBody(unregister: UnregisterRecord) | Garbage

  datatype Message = Message(key: string, body: Body, headers: seq<Header>)

  datatype Record = Record(topic: string, partition: int, leaderEpoch: int, offset: nat, message: Message)
  {
    function TP(): TopicPartition {
      TopicPartition(topic, partition)
    }
  }
}
