/** The device controller dashboard: reading the device's `/sensor` endpoint
    into a history, switching its actuator through `/actuator`, checking
    whether the device is online, and building the prompts and history of the
    language-model analyses. HTTP and model calls are outside the model: their
    outcomes are parameters. */
module IotController {
  import opened Records
  import opened Windows

  /** The dashboard read keeps only the newest readings. */
  const MaxHistory := 100
  const RecentActuatorCount := 5
  const RecentAnalysisCount := 3

  /** How a request ended: with an HTTP status, or by raising. */
  datatype HttpOutcome = Completed(statusCode: int) | Raised(reason: string)

  /** `check_device_status`: "Online" exactly for a completed request with
      status 200; any other status, and any exception, is "Offline". */
  function DeviceStatusOf(outcome: HttpOutcome): (status: string)
    ensures status == "Online" <==> outcome.Completed? && outcome.statusCode == 200
    ensures status == "Online" || status == "Offline"
  {
    match outcome
    case Completed(code) => if code == 200 then "Online" else "Offline"
    case Raised(_) => "Offline"
  }

  /** What `get_sensor()` or `set_actuator()` did: returned the decoded JSON, or
      raised a `requests` exception (connection error, timeout, an error status,
      or a body that is not JSON). */
  datatype CallOutcome = Returned(json: Value) | RequestFailed(reason: string)

  datatype ActuatorEntry = ActuatorEntry(timestamp: string, state: int, response: Value)

  datatype AnalysisType =
    | CurrentSensorData
    | ActuatorPerformance
    | DeviceReport
    | MaintenanceNeeds
    | CustomAnalysis

  datatype Conversation = Conversation(timestamp: string, analysisType: AnalysisType, prompt: string, response: string)

  /** What `generate_content` did: produced a response text, or raised. */
  datatype Generation = Generated(text: string) | GenerationFailed(reason: string)

  /** "ON" for state 1, "OFF" for anything else. */
  function StateText(state: int): (text: string)
    ensures text == "ON" <==> state == 1
    ensures text == "ON" || text == "OFF"
  {
    if state == 1 then "ON" else "OFF"
  }

  /** "//" starts at index `i` of `s`. */
  predicate SepAt(s: string, i: int) {
    0 <= i && i + 1 < |s| && s[i] == '/' && s[i + 1] == '/'
  }

  /** The first "//" at or after `from`. */
  function FindSep(s: string, from: nat): (r: Option<nat>)
    requires from <= |s|
    ensures r.Some? ==> from <= r.value && SepAt(s, r.value)
    ensures r.Some? ==> forall j :: from <= j < r.value ==> !SepAt(s, j)
    ensures r.None? ==> forall j :: from <= j < |s| ==> !SepAt(s, j)
    decreases |s| - from
  {
    if from + 1 >= |s| then None
    else if SepAt(s, from) then Some(from)
    else FindSep(s, from + 1)
  }

  /** The "Base URL" metric: `base_url.split("//")[1]` when the URL contains
      "//", the whole URL otherwise. The host is the text after the first
      "//", up to the next "//" or the end, and holds no "//" itself. */
  function BaseUrlLabel(url: string): (host: string)
    ensures FindSep(url, 0).None? ==> host == url
    ensures FindSep(url, 0).Some? ==>
      var start := FindSep(url, 0).value + 2;
      var stop := start + |host|;
      stop <= |url| && url[start..stop] == host && (stop == |url| || SepAt(url, stop))
      && forall j :: start <= j < stop ==> !SepAt(url, j)
    ensures forall k :: 0 <= k < |host| ==> !SepAt(host, k)
  {
    match FindSep(url, 0)
    case None => url
    case Some(i) =>
      match FindSep(url, i + 2)
      case None =>
        var rest := url[i + 2..];
        assert forall k :: 0 <= k < |rest| && SepAt(rest, k) ==> SepAt(url, i + 2 + k);
        rest
      case Some(j) =>
        var rest := url[i + 2..j];
        assert forall k :: 0 <= k < |rest| && SepAt(rest, k) ==> SepAt(url, i + 2 + k);
        rest
  }

  /** The contract fixes the label: when the first "//" is at `i`, any text that
      starts right after it and runs to the end or to the next "//" without
      passing one is `BaseUrlLabel(url)`. */
  lemma BaseUrlLabelUnique(url: string, i: nat, host: string)
    requires SepAt(url, i) && forall j :: 0 <= j < i ==> !SepAt(url, j)
    requires i + 2 + |host| <= |url| && url[i + 2..i + 2 + |host|] == host
    requires i + 2 + |host| == |url| || SepAt(url, i + 2 + |host|)
    requires forall j :: i + 2 <= j < i + 2 + |host| ==> !SepAt(url, j)
    ensures host == BaseUrlLabel(url)
  {
  }

  /** The default device URL is shown as its host. */
  lemma DefaultBaseUrlLabel()
    ensures BaseUrlLabel("http://192.168.43.64") == "192.168.43.64"
  {
    var url := "http://192.168.43.64";
    assert !SepAt(url, 0) && !SepAt(url, 1) && !SepAt(url, 2) && !SepAt(url, 3) && !SepAt(url, 4);
    assert SepAt(url, 5);
    assert FindSep(url, 0) == Some(5);
    assert forall j :: 7 <= j < |url| ==> !SepAt(url, j);
    assert FindSep(url, 7).None?;
  }

  /** A list quoted into a prompt: its newest entries, or the text
      'No data available' when the list is empty. */
  datatype Window<T> = Entries(items: seq<T>) | NoDataAvailable

  /** `w` quotes the newest `k` entries of `s`, or the sentinel when `s` is empty. */
  ghost predicate Quotes<T>(w: Window<T>, s: seq<T>, k: nat)
    requires k > 0
  {
    (w.NoDataAvailable? <==> |s| == 0) && (w.Entries? ==> w.items == Newest(s, k))
  }

  function LastOrSentinel<T>(s: seq<T>, k: nat): (w: Window<T>)
    requires k > 0
    ensures Quotes(w, s, k)
    ensures w.NoDataAvailable? <==> |s| == 0
    ensures w.Entries? ==> w.items == Newest(s, k) && 1 <= |w.items| <= k
  {
    if |s| > 0 then Entries(Newest(s, k)) else NoDataAvailable
  }

  /** The fixed texts of the pre-built prompts. */
  const CurrentDataOpening := "Analyze this IoT sensor data and provide insights: "
  const ActuatorOpening := "Analyze the actuator state changes and performance: "
  const ReportOpening := "Generate a comprehensive report for this IoT device based on sensor data: "
  const ReportJoining := " and actuator states: "
  const MaintenanceOpening := "Based on this sensor data, predict potential maintenance needs: "

  /** A pre-built prompt: an opening text, the quoted readings (if any), a
      joining text, and the quoted actuator states (if any), in that order. */
  datatype Prompt = Prompt(
    opening: string,
    readings: Option<Window<Record>>,
    joining: string,
    states: Option<Window<ActuatorEntry>>)

  /** The pre-built prompt for each analysis type other than a custom one. The
      current-data analysis quotes the newest 5 readings, the report and the
      maintenance analysis the newest 10; the actuator analysis quotes the newest
      10 states, the report the newest 5. */
  function BuiltInPrompt(kind: AnalysisType, sensors: seq<Record>, actuators: seq<ActuatorEntry>): (p: Prompt)
    requires kind != CustomAnalysis
    ensures p.readings.Some? <==> kind != ActuatorPerformance
    ensures p.states.Some? <==> kind == ActuatorPerformance || kind == DeviceReport
    ensures p.readings.Some? ==> Quotes(p.readings.value, sensors, if kind == CurrentSensorData then 5 else 10)
    ensures p.states.Some? ==> Quotes(p.states.value, actuators, if kind == DeviceReport then 5 else 10)
  {
    match kind
    case CurrentSensorData =>
      Prompt(CurrentDataOpening,
             Some(LastOrSentinel(sensors, 5)), "", None)
    case ActuatorPerformance =>
      Prompt(ActuatorOpening,
             None, "", Some(LastOrSentinel(actuators, 10)))
    case DeviceReport =>
      Prompt(ReportOpening,
             Some(LastOrSentinel(sensors, 10)), ReportJoining, Some(LastOrSentinel(actuators, 5)))
    case MaintenanceNeeds =>
      Prompt(MaintenanceOpening,
             Some(LastOrSentinel(sensors, 10)), "", None)
  }

  class DeviceController {
    /** Sensor readings, oldest first, each stamped when it was read. */
    var sensorData: seq<Record>
    /** Actuator commands that the device acknowledged, oldest first. */
    var actuatorStates: seq<ActuatorEntry>
    /** Saved language-model analyses, oldest first. */
    var conversations: seq<Conversation>
    var deviceStatus: string

    /** Every recorded actuator state is 0 or 1, and the status is one of the
        three the dashboard shows. */
    predicate Valid()
      reads this
    {
      && (forall i :: 0 <= i < |actuatorStates| ==> actuatorStates[i].state == 0 || actuatorStates[i].state == 1)
      && (deviceStatus == "Unknown" || deviceStatus == "Online" || deviceStatus == "Offline")
    }

    constructor ()
      ensures Valid()
      ensures sensorData == [] && actuatorStates == [] && conversations == [] && deviceStatus == "Unknown"
    {
      sensorData := [];
      actuatorStates := [];
      conversations := [];
      deviceStatus := "Unknown";
    }

    /** The "Check Device Status" button. */
    method CheckDeviceStatus(outcome: HttpOutcome)
      requires Valid()
      modifies this
      ensures Valid()
      ensures deviceStatus == DeviceStatusOf(outcome)
      ensures sensorData == old(sensorData) && actuatorStates == old(actuatorStates) && conversations == old(conversations)
    {
      deviceStatus := DeviceStatusOf(outcome);
    }

    /** "Read Sensor Data" on the dashboard (or an auto-refresh): a returned
        dictionary is stamped, appended and the history cut to its newest
        `MaxHistory`. A `requests` failure marks the device offline. A reply that
        is not a dictionary fails when it is stamped and changes nothing. */
    method ReadSensorDashboard(outcome: CallOutcome, timestamp: string, instant: int)
      requires Valid()
      modifies this
      ensures Valid()
      ensures outcome.Returned? && outcome.json.Obj? ==>
        sensorData == Newest(old(sensorData) + [Stamp(outcome.json.fields, timestamp, instant)], MaxHistory)
        && |sensorData| <= MaxHistory
        && deviceStatus == old(deviceStatus)
      ensures outcome.Returned? && !outcome.json.Obj? ==>
        sensorData == old(sensorData) && deviceStatus == old(deviceStatus)
      ensures outcome.RequestFailed? ==> sensorData == old(sensorData) && deviceStatus == "Offline"
      ensures actuatorStates == old(actuatorStates) && conversations == old(conversations)
    {
      match outcome
      case RequestFailed(_) =>
        deviceStatus := "Offline";
      case Returned(json) =>
        if json.Obj? {
          var reading := json.fields;
          reading := reading[TimestampKey := Str(timestamp)];
          reading := reading[DatetimeKey := Time(instant)];
          sensorData := sensorData + [reading];
          if |sensorData| > MaxHistory {
            sensorData := sensorData[|sensorData| - MaxHistory..];
          }
        }
    }

    /** "Get Sensor Data" on the manual-control tab: a returned dictionary is
        stamped and appended with no cap, so the history can grow past
        `MaxHistory` until the next dashboard read. No failure changes state. */
    method ReadSensorManual(outcome: CallOutcome, timestamp: string, instant: int)
      requires Valid()
      modifies this
      ensures Valid()
      ensures outcome.Returned? && outcome.json.Obj? ==>
        sensorData == old(sensorData) + [Stamp(outcome.json.fields, timestamp, instant)]
      ensures !(outcome.Returned? && outcome.json.Obj?) ==> sensorData == old(sensorData)
      ensures deviceStatus == old(deviceStatus) && actuatorStates == old(actuatorStates) && conversations == old(conversations)
    {
      if outcome.Returned? && outcome.json.Obj? {
        var data := outcome.json.fields;
        data := data[TimestampKey := Str(timestamp)];
        data := data[DatetimeKey := Time(instant)];
        sensorData := sensorData + [data];
      }
    }

    /** "Turn ON", "Turn OFF" and "Set Actuator State": a command the device
        answered is recorded once, with the requested state and the reply. */
    method SetActuator(state: int, outcome: CallOutcome, timestamp: string)
      requires Valid()
      requires state == 0 || state == 1
      modifies this
      ensures Valid()
      ensures outcome.Returned? ==> actuatorStates == old(actuatorStates) + [ActuatorEntry(timestamp, state, outcome.json)]
      ensures outcome.RequestFailed? ==> actuatorStates == old(actuatorStates)
      ensures sensorData == old(sensorData) && deviceStatus == old(deviceStatus) && conversations == old(conversations)
    {
      if outcome.Returned? {
        actuatorStates := actuatorStates + [ActuatorEntry(timestamp, state, outcome.json)];
      }
    }

    /** "Analyze with Gemini": nothing is sent for an empty prompt, and an
        analysis is saved only when the model returned a non-empty text. */
    method AnalyzeWithModel(kind: AnalysisType, prompt: string, outcome: Generation, timestamp: string)
      requires Valid()
      modifies this
      ensures Valid()
      ensures |prompt| > 0 && outcome.Generated? && |outcome.text| > 0 ==>
        conversations == old(conversations) + [Conversation(timestamp, kind, prompt, outcome.text)]
      ensures !(|prompt| > 0 && outcome.Generated? && |outcome.text| > 0) ==> conversations == old(conversations)
      ensures sensorData == old(sensorData) && actuatorStates == old(actuatorStates) && deviceStatus == old(deviceStatus)
    {
      if |prompt| > 0 {
        if outcome.Generated? && |outcome.text| > 0 {
          conversations := conversations + [Conversation(timestamp, kind, prompt, outcome.text)];
        }
      }
    }

    /** The dashboard's "Last State" line. */
    method LastActuatorState() returns (shown: Option<(string, string)>)
      requires Valid()
      ensures |actuatorStates| == 0 <==> shown.None?
      ensures shown.Some? ==>
        var last := actuatorStates[|actuatorStates| - 1];
        shown.value == (StateText(last.state), last.timestamp)
        && (shown.value.0 == "ON" <==> last.state == 1)
    {
      if |actuatorStates| > 0 {
        var last := actuatorStates[|actuatorStates| - 1];
        shown := Some((StateText(last.state), last.timestamp));
      } else {
        shown := None;
      }
    }

    /** The "Recent Actuator States" list: the newest five, most recent first,
        each with its state 0 or 1. */
    method RecentActuatorStates() returns (recent: seq<ActuatorEntry>)
      requires Valid()
      ensures |recent| == Min(|actuatorStates|, RecentActuatorCount)
      ensures forall i :: 0 <= i < |recent| ==> recent[i] == actuatorStates[|actuatorStates| - 1 - i]
      ensures forall i :: 0 <= i < |recent| ==> recent[i].state == 0 || recent[i].state == 1
    {
      recent := NewestFirst(actuatorStates, RecentActuatorCount);
    }

    /** The "Recent Analyses" list: the newest three, most recent first. */
    method RecentAnalyses() returns (recent: seq<Conversation>)
      ensures |recent| == Min(|conversations|, RecentAnalysisCount)
      ensures forall i :: 0 <= i < |recent| ==> recent[i] == conversations[|conversations| - 1 - i]
    {
      recent := NewestFirst(conversations, RecentAnalysisCount);
    }
  }

  /** Manual reads are never capped, so the history holds every one of them,
      stamped, in order; the next dashboard read brings it back within
      `MaxHistory`, ending with the new reading. */
  method ManualThenDashboard(manual: seq<Record>, reading: Record, timestamp: string, instant: int)
    returns (uncapped: seq<Record>, history: seq<Record>)
    ensures |uncapped| == |manual|
    ensures forall j :: 0 <= j < |manual| ==> uncapped[j] == Stamp(manual[j], timestamp, instant)
    ensures history == Newest(uncapped + [Stamp(reading, timestamp, instant)], MaxHistory)
    ensures |history| == Min(|manual| + 1, MaxHistory)
    ensures history[|history| - 1] == Stamp(reading, timestamp, instant)
  {
    var device := new DeviceController();
    var k := 0;
    while k < |manual|
      invariant 0 <= k <= |manual|
      invariant device.Valid()
      invariant |device.sensorData| == k
      invariant forall j :: 0 <= j < k ==> device.sensorData[j] == Stamp(manual[j], timestamp, instant)
      modifies device
    {
      device.ReadSensorManual(Returned(Obj(manual[k])), timestamp, instant);
      k := k + 1;
    }
    uncapped := device.sensorData;
    device.ReadSensorDashboard(Returned(Obj(reading)), timestamp, instant);
    history := device.sensorData;
  }
}
