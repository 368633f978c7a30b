/** Raspberry Pi 5 resource status (src/monitoring/pi5_monitor.py). The CPU
    temperature reading and the psutil figures are passed in; -1.0 is the
    sensor's "no reading" value. */
module Pi5 {
  import opened Health

  const TempWarning: real := 75.0
  const TempCritical: real := 80.0
  const TempEmergency: real := 85.0

  /** Which temperature message is produced; the formatted text is not modelled. */
  datatype TempMessage = Unavailable | Emergency(temp: real) | Throttling(temp: real)
                       | Elevated(temp: real) | Normal(temp: real)

  /** check_cpu_temperature_status: the if-chain on the reading. */
  function TemperatureStatus(temp: real): (r: (Status, TempMessage))
    ensures r.1.Unavailable? <==> temp == -1.0
    ensures !r.1.Unavailable? ==> r.1.temp == temp
    ensures r.0 == Unhealthy <==> r.1.Emergency? || r.1.Throttling?
  {
    if temp == -1.0 then (Healthy, Unavailable)
    else if temp >= TempEmergency then (Unhealthy, Emergency(temp))
    else if temp >= TempCritical then (Unhealthy, Throttling(temp))
    else if temp >= TempWarning then (Healthy, Elevated(temp))
    else (Healthy, Normal(temp))
  }

  /** Only 80 degrees matters for the status: at or above it the CPU is
      unhealthy, below it (and for a missing reading) healthy; the check never
      reports degraded. The 85 and 75 bands pick the message only. */
  lemma TemperatureBands(temp: real)
    ensures TemperatureStatus(temp).0 != Degraded
    ensures TemperatureStatus(temp).0 == Unhealthy <==> temp >= TempCritical
    ensures temp == -1.0 ==> TemperatureStatus(temp) == (Healthy, Unavailable)
    ensures temp >= TempEmergency ==> TemperatureStatus(temp).1 == Emergency(temp)
    ensures TempWarning <= temp < TempCritical ==> TemperatureStatus(temp).1 == Elevated(temp)
  {
  }

  datatype Pi5Alert = Resource(alert: Alert) | Temperature(msg: TempMessage)

  /** get_resource_status with one temperature reading: the overall status and
      the alerts (memory, then swap, then the temperature message unless it is
      the plain "normal" one). The status is the worse of the temperature
      status and the system-resource classification. */
  method ResourceStatus(temp: real, available: nat, swapUsed: nat) returns (status: Status, alerts: seq<Pi5Alert>)
    ensures status == Worst(TemperatureStatus(temp).0, Classify(available, swapUsed))
    ensures alerts == ResourceAlerts(available, swapUsed) + TemperatureAlert(temp)
  {
    var (tempStatus, tempMessage) := TemperatureStatus(temp);
    TemperatureBands(temp);
    status := tempStatus;
    alerts := [];
    if available <= MemoryCritical {
      status := Unhealthy;
      alerts := alerts + [Resource(CriticalMemory(available))];
    } else if available <= MemoryLow {
      if status == Healthy {
        status := Degraded;
      }
      alerts := alerts + [Resource(LowMemory(available))];
    }
    assert alerts == Lift(MemoryAlerts(available));
    if swapUsed >= SwapCritical {
      status := Unhealthy;
      alerts := alerts + [Resource(CriticalSwap(swapUsed))];
    } else if swapUsed >= SwapHigh {
      if status == Healthy {
        status := Degraded;
      }
      alerts := alerts + [Resource(HighSwap(swapUsed))];
    }
    assert alerts == ResourceAlerts(available, swapUsed);
    if tempStatus != Healthy || !tempMessage.Normal? {
      alerts := alerts + [Temperature(tempMessage)];
    }
  }

  /** The system-resource alerts as Pi 5 alerts, in order. */
  function Lift(xs: seq<Alert>): (r: seq<Pi5Alert>)
    ensures |r| == |xs|
    ensures forall i :: 0 <= i < |r| ==> r[i] == Resource(xs[i])
  {
    if xs == [] then [] else [Resource(xs[0])] + Lift(xs[1..])
  }

  /** The memory and swap alerts, memory first, each at most once. */
  function ResourceAlerts(available: nat, swapUsed: nat): (r: seq<Pi5Alert>)
    ensures |r| <= 2
    ensures forall i :: 0 <= i < |r| ==> r[i].Resource?
    ensures |r| == 2 ==> r[0].alert.CriticalMemory? || r[0].alert.LowMemory?
  {
    Lift(MemoryAlerts(available)) + Lift(SwapAlerts(swapUsed))
  }

  /** The temperature alert: present unless the reading is an ordinary one below 75. */
  function TemperatureAlert(temp: real): (r: seq<Pi5Alert>)
    ensures r == [] <==> temp != -1.0 && temp < TempWarning
  {
    var (s, m) := TemperatureStatus(temp);
    if s != Healthy || !m.Normal? then [Temperature(m)] else []
  }

  /** A hot CPU makes the whole device unhealthy whatever the memory says, and
      a critical memory or swap figure does so whatever the temperature. */
  lemma UnhealthyWins(temp: real, available: nat, swapUsed: nat)
    ensures temp >= TempCritical ==> Worst(TemperatureStatus(temp).0, Classify(available, swapUsed)) == Unhealthy
    ensures available <= MemoryCritical || swapUsed >= SwapCritical ==>
      Worst(TemperatureStatus(temp).0, Classify(available, swapUsed)) == Unhealthy
    ensures temp < TempCritical ==> Worst(TemperatureStatus(temp).0, Classify(available, swapUsed)) == Classify(available, swapUsed)
  {
    TemperatureBands(temp);
  }
}
