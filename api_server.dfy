/** The sensor ingestion server: its HTTP handlers, the hand-off queue the
    handlers fill and the dashboard drains, the bounded reading log, and the
    start/stop flag of the server. The handlers are methods on one state
    object; routing, JSON encoding and the server thread are not modelled. */
module ApiServer {
  import opened Records
  import opened Windows

  /** Only the newest readings are kept. */
  const MaxReadings := 1000
  const DefaultPort := 5002
  const MinPort := 5000
  const MaxPort := 9999

  /** What `request.get_json()` does with the POST body: it yields a value, or
      raises with a message (a body that is not JSON; a wrong content type in
      recent Flask versions, while older ones return `None` there, which is
      `Parsed(Null)` and takes the 400 path). */
  datatype Body = Parsed(json: Value) | Unreadable(reason: string)

  /** An HTTP status and the JSON object sent back. */
  datatype Response = Response(status: nat, body: Record)

  function ErrorResponse(status: nat, message: string): Response {
    Response(status, map["error" := Str(message)])
  }

  function ReceivedResponse(data: Record): Response {
    Response(200, map["status" := Str("success"),
                      "message" := Str("Data received successfully"),
                      "received_data" := Obj(data)])
  }

  /** The text of the `TypeError` Python raises for `v['timestamp'] = ...`
      when `v` is not a dictionary. */
  function ItemAssignmentError(v: Value): string {
    match v
    case Arr(_) => "list indices must be integers or slices, not str"
    case Str(_) => "'str' object does not support item assignment"
    case Int(_) => "'int' object does not support item assignment"
    case Float(_) => "'float' object does not support item assignment"
    case Bool(_) => "'bool' object does not support item assignment"
    case Null => "'NoneType' object does not support item assignment"
    case Time(_) => "'datetime.datetime' object does not support item assignment"
    case Obj(_) => ""
  }

  const Endpoints: Record := map[
    "POST /sensor/data" := Str("Receive sensor data"),
    "GET /sensor/status" := Str("Check API status"),
    "GET /sensor/latest" := Str("Get latest sensor reading")]

  class SensorApi {
    /** The reading log, oldest first. */
    var sensorData: seq<Record>
    /** The hand-off queue, front first. */
    var dataQueue: seq<Record>
    var serverRunning: bool
    var serverPort: int

    /** Every POST replaces the queue before it enqueues, so it never holds more
        than one reading; the log is capped at `MaxReadings`. */
    predicate Valid()
      reads this
    {
      |sensorData| <= MaxReadings && |dataQueue| <= 1 && MinPort <= serverPort <= MaxPort
    }

    constructor ()
      ensures Valid()
      ensures sensorData == [] && dataQueue == [] && !serverRunning && serverPort == DefaultPort
    {
      sensorData := [];
      dataQueue := [];
      serverRunning := false;
      serverPort := DefaultPort;
    }

    /** POST /sensor/data. The queue is replaced by an empty one as soon as the
        body has been read, so even a rejected POST discards a reading that was
        not yet drained. */
    method ReceiveSensorData(body: Body, timestamp: string, instant: int) returns (resp: Response)
      requires Valid()
      modifies this
      ensures Valid()
      ensures sensorData == old(sensorData) && serverRunning == old(serverRunning) && serverPort == old(serverPort)
      ensures body.Unreadable? ==> dataQueue == old(dataQueue) && resp == ErrorResponse(500, body.reason)
      ensures body.Parsed? && Falsy(body.json) ==>
        dataQueue == [] && resp == ErrorResponse(400, "No data received")
      ensures body.Parsed? && !Falsy(body.json) && body.json.Obj? ==>
        var stored := Stamp(body.json.fields, timestamp, instant);
        dataQueue == [stored] && resp == ReceivedResponse(stored)
      ensures body.Parsed? && !Falsy(body.json) && !body.json.Obj? ==>
        dataQueue == [] && resp == ErrorResponse(500, ItemAssignmentError(body.json))
    {
      if body.Unreadable? {
        return ErrorResponse(500, body.reason);
      }
      var data := body.json;
      dataQueue := [];
      if Falsy(data) {
        return ErrorResponse(400, "No data received");
      }
      if !data.Obj? {
        return ErrorResponse(500, ItemAssignmentError(data));
      }
      var stored := data.fields;
      stored := stored[TimestampKey := Str(timestamp)];
      stored := stored[DatetimeKey := Time(instant)];
      dataQueue := dataQueue + [stored];
      resp := ReceivedResponse(stored);
    }

    /** GET /sensor/status. */
    method ApiStatus() returns (resp: Response)
      ensures resp.status == 200
      ensures resp.body.Keys == {"status", "message", "endpoints", "total_readings"}
      ensures resp.body["status"] == Str("running")
      ensures resp.body["message"] == Str("Sensor API is running")
      ensures resp.body["endpoints"] == Obj(Endpoints)
      ensures resp.body["total_readings"] == Int(|sensorData|)
    {
      resp := Response(200, map[
        "status" := Str("running"),
        "message" := Str("Sensor API is running"),
        "endpoints" := Obj(Endpoints),
        "total_readings" := Int(|sensorData|)]);
    }

    /** GET /sensor/latest. A copy of the newest reading is edited, so the
        stored reading keeps its `datetime`. */
    method GetLatestData() returns (resp: Response)
      ensures |sensorData| == 0 ==> resp == Response(404, map["message" := Str("No data available")])
      ensures |sensorData| > 0 ==>
        resp.status == 200 && resp.body == WithoutDatetime(sensorData[|sensorData| - 1])
    {
      if |sensorData| > 0 {
        var latest := sensorData[|sensorData| - 1];
        if DatetimeKey in latest {
          latest := latest - {DatetimeKey};
        }
        assert latest == WithoutDatetime(sensorData[|sensorData| - 1]);
        resp := Response(200, latest);
      } else {
        resp := Response(404, map["message" := Str("No data available")]);
      }
    }

    /** Moves the queued readings into the log in arrival order, cutting the log
        back to its newest `MaxReadings` after each append. */
    method ProcessQueueData()
      requires Valid()
      modifies this
      ensures Valid()
      ensures dataQueue == []
      ensures old(dataQueue) == [] ==> sensorData == old(sensorData)
      ensures old(dataQueue) != [] ==> sensorData == Newest(old(sensorData) + old(dataQueue), MaxReadings)
      ensures serverRunning == old(serverRunning) && serverPort == old(serverPort)
    {
      ghost var drained: seq<Record> := [];
      while |dataQueue| > 0
        invariant old(dataQueue) == drained + dataQueue
        invariant drained == [] ==> sensorData == old(sensorData)
        invariant drained != [] ==> sensorData == Newest(old(sensorData) + drained, MaxReadings)
        invariant |sensorData| <= MaxReadings
        invariant serverRunning == old(serverRunning) && serverPort == old(serverPort)
        decreases |dataQueue|
      {
        var data := dataQueue[0];
        dataQueue := dataQueue[1..];
        ghost var before := sensorData;
        sensorData := sensorData + [data];
        if |sensorData| > MaxReadings {
          sensorData := sensorData[|sensorData| - MaxReadings..];
        }
        DrainStep(old(sensorData), drained, before, data, sensorData);
        drained := drained + [data];
      }
    }

    /** The "Start API Server" button, offered while the server is stopped.
        `threadStarted` is whether starting the server thread succeeded. */
    method StartServer(requestedPort: int, threadStarted: bool)
      requires Valid() && !serverRunning
      requires MinPort <= requestedPort <= MaxPort
      modifies this
      ensures Valid()
      ensures threadStarted ==> serverRunning && serverPort == requestedPort
      ensures !threadStarted ==> !serverRunning && serverPort == old(serverPort)
      ensures sensorData == old(sensorData) && dataQueue == old(dataQueue)
    {
      if threadStarted {
        serverRunning := true;
        serverPort := requestedPort;
      }
    }

    /** The "Stop Server" button, offered while the server runs. Only the flag
        changes; the port is remembered. */
    method StopServer()
      requires Valid() && serverRunning
      modifies this
      ensures Valid()
      ensures !serverRunning && serverPort == old(serverPort)
      ensures sensorData == old(sensorData) && dataQueue == old(dataQueue)
    {
      serverRunning := false;
    }

    /** The "Clear All Logs" button. */
    method ClearLogs()
      requires Valid()
      modifies this
      ensures Valid()
      ensures sensorData == []
      ensures dataQueue == old(dataQueue) && serverRunning == old(serverRunning) && serverPort == old(serverPort)
    {
      sensorData := [];
    }
  }

  /** One turn of the drain loop keeps the log equal to the newest
      `MaxReadings` of the old log followed by everything drained so far. */
  lemma DrainStep(log: seq<Record>, drained: seq<Record>, before: seq<Record>, data: Record, after: seq<Record>)
    requires drained == [] ==> before == log
    requires drained != [] ==> before == Newest(log + drained, MaxReadings)
    requires after == if |before + [data]| > MaxReadings then (before + [data])[|before + [data]| - MaxReadings..] else before + [data]
    ensures after == Newest(log + (drained + [data]), MaxReadings)
  {
    assert after == Newest(before + [data], MaxReadings);
    assert log + drained + [data] == log + (drained + [data]);
    if drained != [] {
      NewestAppend(log + drained, [data], MaxReadings);
    }
  }

  /** An accepted POST followed by a dashboard refresh: the latest-reading
      endpoint returns the posted fields and the timestamp, without `datetime`. */
  method PostThenLatest(payload: Record, timestamp: string, instant: int) returns (resp: Response)
    requires |payload| > 0
    ensures resp.status == 200
    ensures resp.body == WithoutDatetime(payload)[TimestampKey := Str(timestamp)]
  {
    var api := new SensorApi();
    var posted := api.ReceiveSensorData(Parsed(Obj(payload)), timestamp, instant);
    api.ProcessQueueData();
    assert api.sensorData == [Stamp(payload, timestamp, instant)];
    resp := api.GetLatestData();
    StampThenStrip(payload, timestamp, instant);
  }

  /** Two POSTs between refreshes: the first reading is lost, because the second
      POST replaced the queue. */
  method SecondPostDropsFirst(first: Record, second: Record, t1: string, i1: int, t2: string, i2: int)
    returns (log: seq<Record>)
    requires |first| > 0 && |second| > 0
    ensures log == [Stamp(second, t2, i2)]
  {
    var api := new SensorApi();
    var r1 := api.ReceiveSensorData(Parsed(Obj(first)), t1, i1);
    var r2 := api.ReceiveSensorData(Parsed(Obj(second)), t2, i2);
    api.ProcessQueueData();
    log := api.sensorData;
  }

  /** A rejected (empty) POST between an accepted one and the next refresh also
      discards the accepted reading. */
  method RejectedPostDropsPending(payload: Record, timestamp: string, instant: int)
    returns (rejected: Response, log: seq<Record>)
    requires |payload| > 0
    ensures rejected.status == 400
    ensures log == []
  {
    var api := new SensorApi();
    var accepted := api.ReceiveSensorData(Parsed(Obj(payload)), timestamp, instant);
    assert api.sensorData == [];
    assert Falsy(Obj(map[]));
    rejected := api.ReceiveSensorData(Parsed(Obj(map[])), timestamp, instant);
    assert api.sensorData == [] && api.dataQueue == [];
    api.ProcessQueueData();
    log := api.sensorData;
  }
}
