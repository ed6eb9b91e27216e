/** Commands and their encoding in records: examples/internal/adapters/kafka and sagaadapters. */
module Codec {
  import opened Kafka

  const CMD_TYPE_HEADER := "cmd-type"
  const CMD_TYPE_REGISTER := "register"
  const CMD_TYPE_UNREGISTER := "unregister"
  const DLQ_REASON_HEADER := "dlq-reason"

  datatype RegisterCommand =
    RegisterCommand(transactionId: string, playerId: string, currency: string, time: int, value: int)

  datatype Command = Register(register: RegisterCommand) | Unregister(id: string, time: int, register: RegisterCommand)
  {
    /** The id a command is handled under. */
    function Id(): string {
      match this
      case Register(r) => r.transactionId
      case Unregister(id, _, _) => id
    }

    function ToTransaction(): Option<RegisterCommand> {
      if Register? then Some(register) else None
    }

    function ToCompensatingTransaction(): Option<Command> {
      if Unregister? then Some(this) else None
    }
  }

  datatype CodecError = MissingHeader | BadBody | UnsupportedType

  // ---- JSON: unknown fields are ignored and missing ones stay zero ----

  const ZERO_TIME := 0

  function UnmarshalRegister(body: Body): Result<RegisterRecord, CodecError> {
    match body
    case RegisterBody(r) => Ok(r)
    case UnregisterBody(u) => Ok(RegisterRecord("", "", 0, u.time))
    case Garbage => Err(BadBody)
  }

  function UnmarshalUnregister(body: Body): Result<UnregisterRecord, CodecError> {
    match body
    case UnregisterBody(u) => Ok(u)
    case RegisterBody(r) => Ok(UnregisterRecord("", r.time, RegisterRecord("", "", 0, ZERO_TIME)))
    case Garbage => Err(BadBody)
  }

  // ---- Headers ----

  /** The value of the first header with the key. */
  function HeaderLookup(headers: seq<Header>, key: string): Option<string> {
    if headers == [] then None
    else if headers[0].key == key then Some(headers[0].value)
    else HeaderLookup(headers[1..], key)
  }

  method HeaderValue(message: Message, key: string) returns (value: Result<string, CodecError>)
    ensures value == (match HeaderLookup(message.headers, key) case Some(v) => Ok(v) case None => Err(MissingHeader))
    ensures value.Err? <==> forall i | 0 <= i < |message.headers| :: message.headers[i].key != key
  {
    assert message.headers[0..] == message.headers;
    for i := 0 to |message.headers|
      invariant HeaderLookup(message.headers, key) == HeaderLookup(message.headers[i..], key)
      invariant forall j | 0 <= j < i :: message.headers[j].key != key
    {
      if message.headers[i].key == key {
        return Ok(message.headers[i].value);
      }
      assert message.headers[i..][1..] == message.headers[i + 1..];
    }
    return Err(MissingHeader);
  }

  // ---- Decoding ----

  function ToRegisterCommand(r: RegisterRecord, transactionId: string): RegisterCommand {
    RegisterCommand(transactionId, r.playerId, r.currency, r.time, r.value)
  }

  /** The tx-consumer's reading of a record; the key of an unregister names the register it undoes. */
  function MapToTxCommand(message: Message): Result<Command, CodecError> {
    match HeaderLookup(message.headers, CMD_TYPE_HEADER)
    case None => Err(MissingHeader)
    case Some(cmdType) =>
      if cmdType == CMD_TYPE_REGISTER then
        match UnmarshalRegister(message.body) {
          case Err(e) => Err(e)
          case Ok(r) => Ok(Register(ToRegisterCommand(r, message.key)))
        }
      else if cmdType == CMD_TYPE_UNREGISTER then
        match UnmarshalUnregister(message.body) {
          case Err(e) => Err(e)
          case Ok(u) => Ok(Unregister(u.id, u.time, ToRegisterCommand(u.registerRecord, message.key)))
        }
      else Err(UnsupportedType)
  }

  /** The validator's reading: None is "not for me". */
  function MapToRegisterCommand(message: Message): Result<Option<RegisterCommand>, CodecError> {
    match HeaderLookup(message.headers, CMD_TYPE_HEADER)
    case None => Err(MissingHeader)
    case Some(cmdType) =>
      if cmdType == CMD_TYPE_REGISTER then
        match UnmarshalRegister(message.body) {
          case Err(e) => Err(e)
          case Ok(r) => Ok(Some(ToRegisterCommand(r, message.key)))
        }
      else if cmdType == CMD_TYPE_UNREGISTER then Ok(None)
      else Err(UnsupportedType)
  }

  // ---- Encoding ----

  function NewUnregisterRecord(id: string, time: int, cmd: RegisterCommand): UnregisterRecord {
    UnregisterRecord(id, time, RegisterRecord(cmd.playerId, cmd.currency, cmd.value, cmd.time))
  }

  /** The validator's compensating record, keyed by the transaction it undoes. */
  function NewUnregisterMessage(id: string, time: int, cmd: RegisterCommand): Message {
    Message(cmd.transactionId, UnregisterBody(NewUnregisterRecord(id, time, cmd)),
            [Header(CMD_TYPE_HEADER, CMD_TYPE_UNREGISTER)])
  }

  /** The producer's record. */
  function NewRegisterMessage(cmd: RegisterCommand): Message {
    Message(cmd.transactionId, RegisterBody(RegisterRecord(cmd.playerId, cmd.currency, cmd.value, cmd.time)),
            [Header(CMD_TYPE_HEADER, CMD_TYPE_REGISTER)])
  }

  /** What the DLQ producer publishes for a record that failed. */
  function ToDlqMessage(original: Message, cause: string): Message {
    Message(original.key, original.body, original.headers + [Header(DLQ_REASON_HEADER, cause)])
  }

  /** The headers and types as they are on the wire. */
  lemma WireFormat(key: string, r: RegisterRecord, u: UnregisterRecord)
    ensures MapToTxCommand(Message(key, RegisterBody(r), [Header("cmd-type", "register")]))
         == Ok(Register(RegisterCommand(key, r.playerId, r.currency, r.time, r.value)))
    ensures MapToTxCommand(Message(key, UnregisterBody(u), [Header("cmd-type", "register")]))
         == Ok(Register(RegisterCommand(key, "", "", u.time, 0)))
    ensures MapToTxCommand(Message(key, RegisterBody(r), [Header("cmd-type", "unregister")]))
         == Ok(Unregister("", r.time, RegisterCommand(key, "", "", 0, 0)))
    ensures var undone := u.registerRecord;
            MapToTxCommand(Message(key, UnregisterBody(u), [Header("cmd-type", "unregister")]))
            == Ok(Unregister(u.id, u.time,
                             RegisterCommand(key, undone.playerId, undone.currency, undone.time, undone.value)))
  {
    assert HeaderLookup([Header("cmd-type", "register")], "cmd-type") == Some("register");
    assert HeaderLookup([Header("cmd-type", "unregister")], "cmd-type") == Some("unregister");
    assert "register"[0] != "unregister"[0];
  }

  /** What cannot be decoded: no type, another type, or a body that is no such object. */
  lemma UndecodableIff(message: Message)
    ensures MapToTxCommand(message).Err?
            <==> match HeaderLookup(message.headers, "cmd-type")
                 case None => true
                 case Some(cmdType) => (cmdType != "register" && cmdType != "unregister") || message.body.Garbage?
  {
  }

  /** The validator passes over every unregister, whatever its body, and over nothing else. */
  lemma ValidatorReads(message: Message)
    ensures MapToRegisterCommand(message) == Ok(None)
            <==> HeaderLookup(message.headers, "cmd-type") == Some("unregister")
    ensures MapToRegisterCommand(message).Err?
            <==> match HeaderLookup(message.headers, "cmd-type")
                 case None => true
                 case Some(cmdType) =>
                   cmdType != "unregister" && (cmdType != "register" || message.body.Garbage?)
  {
    assert "register"[0] != "unregister"[0];
  }

  // ---- Round trips ----

  /** The compensating command that reaches the tx-consumer carries, through the log and its key, the
      very register command the validator rejected; the validator itself ignores it. */
  lemma UnregisterRoundTrip(id: string, time: int, cmd: RegisterCommand)
    ensures MapToTxCommand(NewUnregisterMessage(id, time, cmd)) == Ok(Unregister(id, time, cmd))
    ensures MapToRegisterCommand(NewUnregisterMessage(id, time, cmd)) == Ok(None)
    ensures NewUnregisterMessage(id, time, cmd).key == cmd.transactionId
  {
    assert HeaderLookup([Header(CMD_TYPE_HEADER, CMD_TYPE_UNREGISTER)], CMD_TYPE_HEADER) == Some(CMD_TYPE_UNREGISTER);
  }

  lemma RegisterRoundTrip(cmd: RegisterCommand)
    ensures MapToTxCommand(NewRegisterMessage(cmd)) == Ok(Register(cmd))
    ensures MapToRegisterCommand(NewRegisterMessage(cmd)) == Ok(Some(cmd))
  {
    assert HeaderLookup([Header(CMD_TYPE_HEADER, CMD_TYPE_REGISTER)], CMD_TYPE_HEADER) == Some(CMD_TYPE_REGISTER);
  }

  /** Both consumers of the topic read the same register commands out of it. */
  lemma ConsumersAgree(message: Message, cmd: RegisterCommand)
    ensures MapToRegisterCommand(message) == Ok(Some(cmd)) <==> MapToTxCommand(message) == Ok(Register(cmd))
    ensures MapToRegisterCommand(message).Err? ==> MapToTxCommand(message).Err?
    ensures MapToTxCommand(message).Ok? ==> MapToTxCommand(message).value.register.transactionId == message.key
  {
  }

  /** Publishing to the DLQ adds a header behind the others, so a record taken back from the DLQ
      still decodes to what it was. */
  lemma {:induction false} DlqMessageDecodesAlike(original: Message, cause: string)
    ensures MapToTxCommand(ToDlqMessage(original, cause)) == MapToTxCommand(original)
    ensures MapToRegisterCommand(ToDlqMessage(original, cause)) == MapToRegisterCommand(original)
  {
    LookupInExtension(original.headers, Header(DLQ_REASON_HEADER, cause), CMD_TYPE_HEADER);
  }

  /** It keeps key and body, and says why it is there unless it said so before. */
  lemma DlqMessageSaysWhy(original: Message, cause: string)
    ensures var dead := ToDlqMessage(original, cause);
            && dead.key == original.key && dead.body == original.body
            && (forall key | key != "dlq-reason" ::
                  HeaderLookup(dead.headers, key) == HeaderLookup(original.headers, key))
            && HeaderLookup(dead.headers, "dlq-reason")
               == match HeaderLookup(original.headers, "dlq-reason")
                  case None => Some(cause)
                  case Some(before) => Some(before)
  {
    forall key | key != "dlq-reason"
      ensures HeaderLookup(ToDlqMessage(original, cause).headers, key) == HeaderLookup(original.headers, key)
    {
      LookupInExtension(original.headers, Header(DLQ_REASON_HEADER, cause), key);
    }
    LookupOfExtension(original.headers, Header(DLQ_REASON_HEADER, cause));
  }

  lemma {:induction false} LookupOfExtension(headers: seq<Header>, extra: Header)
    ensures HeaderLookup(headers + [extra], extra.key)
         == if HeaderLookup(headers, extra.key).None? then Some(extra.value) else HeaderLookup(headers, extra.key)
  {
    if headers == [] {
      assert headers + [extra] == [extra];
    } else {
      assert (headers + [extra])[1..] == headers[1..] + [extra];
      LookupOfExtension(headers[1..], extra);
    }
  }

  lemma {:induction false} LookupInExtension(headers: seq<Header>, extra: Header, key: string)
    requires extra.key != key
    ensures HeaderLookup(headers + [extra], key) == HeaderLookup(headers, key)
  {
    if headers == [] {
    } else {
      assert (headers + [extra])[1..] == headers[1..] + [extra];
      LookupInExtension(headers[1..], extra, key);
    }
  }
}
