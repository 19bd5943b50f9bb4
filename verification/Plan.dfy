/** Subscription plans and their limits (platform/internal/plan/plan.go). */
module Plan {
  datatype Limits = Limits(maxConcurrentLabs: int, allowedNosTiers: seq<string>)

  /** The limits of a plan; an unknown name counts as "free". */
  function Get(planName: string): Limits {
    if planName == "light" then Limits(3, ["lightweight", "midweight"])
    else if planName == "heavy" then Limits(10, ["lightweight", "midweight", "heavyweight"])
    else Limits(1, ["lightweight"])
  }

  function NosImageTier(clabKind: string, dockerImage: string): string {
    if clabKind in {"mikrotik_ros", "openwrt", "freebsd"} then "midweight"
    else if clabKind in {"srl", "sonic-vs", "ceos", "vr-veos", "vr-sros", "vr-xrv9k", "vr-vmx", "cvx", "vr-aoscx",
                         "fortinet_fortigate"} then "heavyweight"
    else "lightweight"
  }

  predicate TierAllowed(planName: string, tier: string) {
    tier in Get(planName).allowedNosTiers
  }
}
