/** SystemHealthMonitor: a health score in [0,1] for the eye tracker, the face
    detector and performance, and a periodic check that stores the scores. The
    tracker's state, the detector's presence, the frame time and the managed
    heap size are passed in. */
module HealthMonitoring {
  import opened Numeric

  datatype MonitorConfig = MonitorConfig(
    monitorEyeTracker: bool,
    monitorFaceDetection: bool,
    monitorPerformance: bool,
    healthCheckInterval: real,
    maxFrameTime: real,
    maxMemoryMB: int)

  const DefaultMonitorConfig := MonitorConfig(true, true, true, 5.0, 0.033, 1024)

  /** What GetSystemHealth observes. */
  datatype Observations = Observations(
    eyeTrackerConnected: bool,
    faceDetectorFound: bool,
    frameTime: real,
    totalMemoryBytes: nat)

  /** An issue line, without its number formatting. */
  datatype Issue = EyeTrackerNotConnected | FaceDetectorNotFound | HighFrameTime(frameTime: real) | HighMemoryUsage(memoryMB: nat)

  datatype HealthStatus = HealthStatus(
    overallHealth: real,
    eyeTrackerHealth: real,
    faceDetectionHealth: real,
    performanceHealth: real,
    issues: seq<Issue>)

  /** The status GetSystemHealth starts from. */
  const FreshStatus := HealthStatus(1.0, 1.0, 1.0, 1.0, [])

  /** GC.GetTotalMemory(false) / 1024 / 1024. */
  function MemoryMB(bytes: nat): nat
  {
    bytes / 1024 / 1024
  }

  /** 1 - (frameTime - max) / max, clamped. With max = 0 the single-precision
      quotient is +infinity and the clamp gives 0. */
  function FrameTimeHealth(frameTime: real, maxFrameTime: real): (r: real)
    ensures InUnit(r)
  {
    if maxFrameTime == 0.0 then 0.0 else Clamp01(1.0 - (frameTime - maxFrameTime) / maxFrameTime)
  }

  function EyeTrackerCheck(cfg: MonitorConfig, obs: Observations, s: HealthStatus): HealthStatus
  {
    if !cfg.monitorEyeTracker then s
    else if !obs.eyeTrackerConnected then s.(eyeTrackerHealth := 0.0, issues := s.issues + [EyeTrackerNotConnected])
    else s.(eyeTrackerHealth := 1.0)
  }

  function FaceDetectionCheck(cfg: MonitorConfig, obs: Observations, s: HealthStatus): HealthStatus
  {
    if !cfg.monitorFaceDetection then s
    else if !obs.faceDetectorFound then s.(faceDetectionHealth := 0.5, issues := s.issues + [FaceDetectorNotFound])
    else s.(faceDetectionHealth := 1.0)
  }

  function PerformanceCheck(cfg: MonitorConfig, obs: Observations, s: HealthStatus): HealthStatus
  {
    if !cfg.monitorPerformance then s
    else
      var afterFrame :=
        if obs.frameTime > cfg.maxFrameTime
        then s.(performanceHealth := FrameTimeHealth(obs.frameTime, cfg.maxFrameTime), issues := s.issues + [HighFrameTime(obs.frameTime)])
        else s;
      var memoryMB := MemoryMB(obs.totalMemoryBytes);
      if memoryMB > cfg.maxMemoryMB
      then afterFrame.(performanceHealth := afterFrame.performanceHealth * 0.5, issues := afterFrame.issues + [HighMemoryUsage(memoryMB)])
      else afterFrame
  }

  /** GetSystemHealth: the three checks in order, then the mean. */
  function GetSystemHealth(cfg: MonitorConfig, obs: Observations): HealthStatus
  {
    var s := PerformanceCheck(cfg, obs, FaceDetectionCheck(cfg, obs, EyeTrackerCheck(cfg, obs, FreshStatus)));
    s.(overallHealth := (s.eyeTrackerHealth + s.faceDetectionHealth + s.performanceHealth) / 3.0)
  }

  /** Every score lies in [0,1], and overall is the mean of the other three. */
  lemma HealthInUnit(cfg: MonitorConfig, obs: Observations)
    ensures var h := GetSystemHealth(cfg, obs);
      InUnit(h.eyeTrackerHealth) && InUnit(h.faceDetectionHealth) && InUnit(h.performanceHealth) && InUnit(h.overallHealth)
      && 3.0 * h.overallHealth == h.eyeTrackerHealth + h.faceDetectionHealth + h.performanceHealth
  {
  }

  /** Each component's rule: a monitored but missing tracker scores 0 and a
      missing detector 0.5, each with one issue; performance is 1 unless the
      frame time is over its limit, and halves when memory is over its limit. */
  lemma ComponentRules(cfg: MonitorConfig, obs: Observations)
    ensures var h := GetSystemHealth(cfg, obs);
      h.eyeTrackerHealth == (if cfg.monitorEyeTracker && !obs.eyeTrackerConnected then 0.0 else 1.0)
      && (EyeTrackerNotConnected in h.issues <==> cfg.monitorEyeTracker && !obs.eyeTrackerConnected)
    ensures var h := GetSystemHealth(cfg, obs);
      h.faceDetectionHealth == (if cfg.monitorFaceDetection && !obs.faceDetectorFound then 0.5 else 1.0)
      && (FaceDetectorNotFound in h.issues <==> cfg.monitorFaceDetection && !obs.faceDetectorFound)
    ensures var h := GetSystemHealth(cfg, obs);
      var frame := if cfg.monitorPerformance && obs.frameTime > cfg.maxFrameTime then FrameTimeHealth(obs.frameTime, cfg.maxFrameTime) else 1.0;
      h.performanceHealth == (if cfg.monitorPerformance && MemoryMB(obs.totalMemoryBytes) > cfg.maxMemoryMB then frame * 0.5 else frame)
  {
  }

  /** Issues are listed tracker, detector, frame time, memory: one per failed
      check, in that order. */
  lemma IssuesInOrder(cfg: MonitorConfig, obs: Observations)
    ensures GetSystemHealth(cfg, obs).issues ==
      (if cfg.monitorEyeTracker && !obs.eyeTrackerConnected then [EyeTrackerNotConnected] else [])
      + (if cfg.monitorFaceDetection && !obs.faceDetectorFound then [FaceDetectorNotFound] else [])
      + (if cfg.monitorPerformance && obs.frameTime > cfg.maxFrameTime then [HighFrameTime(obs.frameTime)] else [])
      + (if cfg.monitorPerformance && MemoryMB(obs.totalMemoryBytes) > cfg.maxMemoryMB then [HighMemoryUsage(MemoryMB(obs.totalMemoryBytes))] else [])
  {
    var s0 := FreshStatus;
    var s1 := EyeTrackerCheck(cfg, obs, s0);
    var s2 := FaceDetectionCheck(cfg, obs, s1);
    assert s1.issues == [] + (if cfg.monitorEyeTracker && !obs.eyeTrackerConnected then [EyeTrackerNotConnected] else []);
  }

  /** With a positive limit, a frame time over it scores lower the further it
      goes, reaching 0 at twice the limit. */
  lemma FrameTimeHealthFalls(maxFrameTime: real, a: real, b: real)
    requires maxFrameTime > 0.0 && maxFrameTime < a <= b
    ensures FrameTimeHealth(b, maxFrameTime) <= FrameTimeHealth(a, maxFrameTime)
    ensures b >= 2.0 * maxFrameTime ==> FrameTimeHealth(b, maxFrameTime) == 0.0
  {
    DivideMonotone(a - maxFrameTime, b - maxFrameTime, maxFrameTime);
    if b >= 2.0 * maxFrameTime {
      DivideMonotone(maxFrameTime, b - maxFrameTime, maxFrameTime);
    }
  }

  lemma DivideMonotone(x: real, y: real, d: real)
    requires d > 0.0 && x <= y
    ensures x / d <= y / d
  {
    assert y / d - x / d == (y - x) / d;
  }

  /** The four metric names Update stores. */
  const MetricNames: set<string> := {"Overall", "EyeTracker", "FaceDetection", "Performance"}

  function Metrics(h: HealthStatus): map<string, real>
  {
    map["Overall" := h.overallHealth, "EyeTracker" := h.eyeTrackerHealth,
        "FaceDetection" := h.faceDetectionHealth, "Performance" := h.performanceHealth]
  }

  class SystemHealthMonitor {
    const config: MonitorConfig
    var lastHealthCheck: real
    var healthMetrics: map<string, real>

    ghost predicate Valid()
      reads this
    {
      healthMetrics.Keys <= MetricNames && forall k :: k in healthMetrics ==> InUnit(healthMetrics[k])
    }

    constructor(cfg: MonitorConfig)
      ensures config == cfg && lastHealthCheck == 0.0 && healthMetrics == map[] && Valid()
    {
      config := cfg;
      lastHealthCheck := 0.0;
      healthMetrics := map[];
    }

    /** Update: a check runs only once more than healthCheckInterval has
        passed since the last one; it stores the four scores. */
    method Update(now: real, obs: Observations)
      requires Valid()
      modifies this
      ensures Valid()
      ensures now - old(lastHealthCheck) > config.healthCheckInterval ==>
        lastHealthCheck == now && healthMetrics == old(healthMetrics) + Metrics(GetSystemHealth(config, obs))
      ensures !(now - old(lastHealthCheck) > config.healthCheckInterval) ==>
        lastHealthCheck == old(lastHealthCheck) && healthMetrics == old(healthMetrics)
    {
      if now - lastHealthCheck > config.healthCheckInterval {
        lastHealthCheck := now;
        var health := GetSystemHealth(config, obs);
        HealthInUnit(config, obs);
        // The four indexer assignments.
        healthMetrics := healthMetrics + Metrics(health);
      }
    }

    /** A copy of the metrics. */
    method GetHealthMetrics() returns (metrics: map<string, real>)
      ensures metrics == healthMetrics
    {
      metrics := healthMetrics;
    }
  }
}
