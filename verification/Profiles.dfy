/** Which GPU profile a spec calls for, and what the built-in ones are. */
module Profiles {
  import opened Basics
  import opened Api
  import opened Resources

  const BUILT_IN: set<string> := {"a100", "h100", "h200", "b200", "gb200", "l40s", "t4"}

  /** `name` is the profile the spec asks for: its custom one if it has one, and else the built-in one it names. */
  predicate AsksFor(spec: Spec, name: string) {
    if spec.custom.Some? then name == "custom" else name == spec.gpuProfile && name in BUILT_IN
  }

  lemma BuiltInFound(name: string)
    ensures GetProfile(name).Some? <==> name in BUILT_IN
    ensures GetProfile(name).Some? ==> GetProfile(name).value.name == name
  {
  }

  /**
   * A profile resolves if and only if the spec has a custom one or names a built-in one; then it is the one asked for.
   * A custom profile wins over a name given beside it, and brings its own product and memory.
   */
  lemma ProfileResolves(spec: Spec)
    ensures ResolveProfile(spec).Some? <==> spec.custom.Some? || spec.gpuProfile in BUILT_IN
    ensures ResolveProfile(spec).Some? ==> AsksFor(spec, ResolveProfile(spec).value.name)
    ensures spec.custom.Some? && ResolveProfile(spec).Some? ==>
      var p := ResolveProfile(spec).value;
      p.product == spec.custom.value.product && p.memory == spec.custom.value.memory && p.architecture == ""
    ensures spec.custom.None? && ResolveProfile(spec).Some? ==>
      GetProfile(spec.gpuProfile) == ResolveProfile(spec)
  {
    BuiltInFound(spec.gpuProfile);
  }

  /** Memory in MiB and architecture of the product of each built-in profile. */
  predicate DataSheet(product: string, memory: int, architecture: string) {
    || (product == "NVIDIA-A100-SXM4-40GB" && memory == 40960 && architecture == "Ampere")
    || (product == "NVIDIA-H100-80GB-HBM3" && memory == 81920 && architecture == "Hopper")
    || (product == "NVIDIA-H200" && memory == 143771 && architecture == "Hopper")
    || (product == "NVIDIA-B200" && memory == 196608 && architecture == "Blackwell")
    || (product == "NVIDIA-GB200-NVL" && memory == 196608 && architecture == "Blackwell")
    || (product == "NVIDIA-L40S" && memory == 49152 && architecture == "Ada Lovelace")
    || (product == "Tesla-T4" && memory == 16384 && architecture == "Turing")
  }

  lemma BuiltInProducts()
    ensures forall name | name in BUILT_IN :: GetProfile(name).Some?
    ensures GetProfile("a100").value.product == "NVIDIA-A100-SXM4-40GB"
    ensures GetProfile("h100").value.product == "NVIDIA-H100-80GB-HBM3"
    ensures GetProfile("h200").value.product == "NVIDIA-H200"
    ensures GetProfile("b200").value.product == "NVIDIA-B200"
    ensures GetProfile("gb200").value.product == "NVIDIA-GB200-NVL"
    ensures GetProfile("l40s").value.product == "NVIDIA-L40S"
    ensures GetProfile("t4").value.product == "Tesla-T4"
  {
  }

  /** No two built-in profiles are taken for the same product, and each has its product's memory and architecture. */
  lemma BuiltInApart(a: string, b: string)
    requires GetProfile(a).Some? && GetProfile(b).Some?
    ensures GetProfile(a).value.product == GetProfile(b).value.product <==> a == b
    ensures var p := GetProfile(a).value; DataSheet(p.product, p.memory, p.architecture)
  {
  }

  /** The MIG strategy a spec asks for; without MIG there is none. */
  function StrategyOf(spec: Spec): string {
    if spec.mig.Some? && spec.mig.value.enabled then spec.mig.value.strategy else "none"
  }

  /** The profile a run uses for a spec already is what its custom values ask for. */
  lemma ProfileValues(spec: Spec, p: GPUProfile)
    requires ResolveProfile(spec) == Some(p)
    ensures Product(spec, p) == p.product && Memory(spec, p) == p.memory && Strategy(spec) == StrategyOf(spec)
  {
    ProfileResolves(spec);
  }
}
