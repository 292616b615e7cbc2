/** The page-wide event store: two append-only streams. */
module Store {
  import opened Wrappers
  import opened Messages

  /** An entry of the `data` stream: a message keyed by its prompt id. */
  datatype DataRecord = DataRecord(id: string, timestamp: int, json: Message)

  /** An entry of the `logs` stream. `logs` is whatever the frame's `data` was. */
  datatype LogRecord = LogRecord(machineId: string, logs: Payload, timestamp: int)

  class EventStore {
    var data: seq<DataRecord>
    var logs: seq<LogRecord>

    /** Both streams start empty. */
    constructor ()
      ensures data == [] && logs == []
    {
      data := [];
      logs := [];
    }

    /** `addLogs(id, logs)`: append one log record stamped `now`; the data stream is untouched. */
    method AddLogs(id: string, line: Payload, now: int)
      modifies this
      ensures logs == old(logs) + [LogRecord(id, line, now)]
      ensures data == old(data)
    {
      logs := logs + [LogRecord(id, line, now)];
    }

    /** `addData(id, json)`: append one data record stamped `now`; the log stream is untouched. */
    method AddData(id: string, json: Message, now: int)
      modifies this
      ensures data == old(data) + [DataRecord(id, now, json)]
      ensures logs == old(logs)
    {
      data := data + [DataRecord(id, now, json)];
    }
  }
}
