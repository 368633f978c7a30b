/** The system-resource health check (src/health_checks.py, check_system_resources).
    The memory and swap figures psutil reports are passed in as byte counts. */
module Health {
  import opened Wrappers

  datatype Status = Healthy | Degraded | Unhealthy

  /** Severity order: healthy < degraded < unhealthy. */
  function Rank(s: Status): nat
  {
    match s
    case Healthy => 0
    case Degraded => 1
    case Unhealthy => 2
  }

  /** The more severe of two statuses. */
  function Worst(a: Status, b: Status): (r: Status)
    ensures Rank(r) == if Rank(a) >= Rank(b) then Rank(a) else Rank(b)
    ensures r == a || r == b
  {
    if Rank(a) >= Rank(b) then a else b
  }

  const MiB: nat := 1024 * 1024
  const GiB: nat := 1024 * 1024 * 1024

  /** Available memory at or below this is critical. */
  const MemoryCritical: nat := 500 * MiB
  /** Available memory at or below this is low. */
  const MemoryLow: nat := 1 * GiB
  /** Swap use at or above this is critical. */
  const SwapCritical: nat := 4 * GiB
  /** Swap use at or above this is high. */
  const SwapHigh: nat := 2 * GiB

  /** A tripped threshold together with the figure that tripped it; the
      rendered message text (gigabytes to two decimals) is not modelled. */
  datatype Alert = CriticalMemory(available: nat) | LowMemory(available: nat)
                 | CriticalSwap(used: nat) | HighSwap(used: nat)

  datatype Report = Report(status: Status, component: string, details: Option<seq<Alert>>)

  /** The classification stated outright: unhealthy when either figure is
      critical, healthy when both are comfortably inside their limits,
      degraded otherwise. */
  function Classify(available: nat, swapUsed: nat): (s: Status)
    ensures s == Healthy <==> MemoryAlerts(available) == [] && SwapAlerts(swapUsed) == []
    ensures s == Unhealthy <==> CriticalMemory(available) in MemoryAlerts(available) || CriticalSwap(swapUsed) in SwapAlerts(swapUsed)
  {
    if available <= MemoryCritical || swapUsed >= SwapCritical then Unhealthy
    else if available > MemoryLow && swapUsed < SwapHigh then Healthy
    else Degraded
  }

  /** The memory alert, if any. */
  function MemoryAlerts(available: nat): (r: seq<Alert>)
    ensures |r| <= 1
    ensures r == [] <==> available > MemoryLow
  {
    if available <= MemoryCritical then [CriticalMemory(available)]
    else if available <= MemoryLow then [LowMemory(available)]
    else []
  }

  /** The swap alert, if any. */
  function SwapAlerts(swapUsed: nat): (r: seq<Alert>)
    ensures |r| <= 1
    ensures r == [] <==> swapUsed < SwapHigh
  {
    if swapUsed >= SwapCritical then [CriticalSwap(swapUsed)]
    else if swapUsed >= SwapHigh then [HighSwap(swapUsed)]
    else []
  }

  /** check_system_resources: status from the thresholds, component "system",
      and details None when nothing tripped, otherwise one alert per tripped
      threshold with memory before swap. */
  method CheckSystemResources(available: nat, swapUsed: nat) returns (r: Report)
    ensures r.status == Classify(available, swapUsed)
    ensures r.component == "system"
    ensures r.details.None? <==> available > MemoryLow && swapUsed < SwapHigh
    ensures r.details.Some? ==> r.details.value == MemoryAlerts(available) + SwapAlerts(swapUsed)
  {
    var status := Healthy;
    var details: seq<Alert> := [];
    if available <= MemoryCritical {
      status := Unhealthy;
      details := details + [CriticalMemory(available)];
    } else if available <= MemoryLow {
      if status == Healthy {
        status := Degraded;
      }
      details := details + [LowMemory(available)];
    }
    if swapUsed >= SwapCritical {
      status := Unhealthy;
      details := details + [CriticalSwap(swapUsed)];
    } else if swapUsed >= SwapHigh {
      if status == Healthy {
        status := Degraded;
      }
      details := details + [HighSwap(swapUsed)];
    }
    r := Report(status, "system", if details != [] then Some(details) else None);
  }

  /** More free memory and less swap never make the verdict worse. */
  lemma ClassifyMonotone(a1: nat, s1: nat, a2: nat, s2: nat)
    requires a1 <= a2 && s2 <= s1
    ensures Rank(Classify(a2, s2)) <= Rank(Classify(a1, s1))
  {
  }

  /** Both boundaries are inclusive: exactly 500 MiB free is critical, exactly
      1 GiB free is low, exactly 4 GiB of swap is critical, exactly 2 GiB high. */
  lemma Boundaries()
    ensures Classify(MemoryCritical, 0) == Unhealthy && Classify(MemoryCritical + 1, 0) == Degraded
    ensures Classify(MemoryLow, 0) == Degraded && Classify(MemoryLow + 1, 0) == Healthy
    ensures Classify(MemoryLow + 1, SwapCritical) == Unhealthy && Classify(MemoryLow + 1, SwapCritical - 1) == Degraded
    ensures Classify(MemoryLow + 1, SwapHigh) == Degraded && Classify(MemoryLow + 1, SwapHigh - 1) == Healthy
  {
  }
}
