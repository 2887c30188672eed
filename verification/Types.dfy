/** The values that flow through the optimiser: fidelity levels, estimates, job results,
    cache keys and the world the evaluations depend on. */
module Types {

  datatype Option<+T> = None | Some(value: T)

  /** A point in base-lattice units. */
  type XMesh = seq<int>

  /** At least one objective: an evaluator never reports an empty objective vector. */
  type Objectives = s: seq<real> | |s| > 0 witness [0.0]

  /** One fidelity level: solver tolerance (larger is looser) and number of samples. */
  datatype Phi = Phi(tau: nat, smc: nat)

  datatype Env = Env(runId: nat, configHash: nat, dataSnapshotId: nat, rngMasterSeed: nat)

  /** The environment revision, injective in the environment and the base steps. */
  datatype EnvRev = EnvRev(env: Env, baseSteps: seq<real>)

  datatype Estimates = Estimates(
    fHat: Objectives,
    fSe: seq<real>,
    cHat: seq<real>,
    cSe: seq<real>,
    phi: Phi,
    tauScale: real,
    numObjectives: nat)
  {
    function FHatPrimary(): real {
      fHat[0]
    }

    function FSePrimary(): real {
      if |fSe| > 0 then fSe[0] else 0.0
    }
  }

  datatype EvalMeta = EvalMeta(phi: Phi, envRev: EnvRev, policyRev: nat, runtimeCost: real)

  datatype JobResult =
    | RejectedCheap(meta: EvalMeta)
    | RejectedInvalidEval(meta: EvalMeta)
    | EarlyInfeasible(violatedJ: nat, estimates: Estimates, meta: EvalMeta)
    | Partial(estimates: Estimates, meta: EvalMeta)
    | Truth(f: Objectives, c: seq<real>, feasible: bool, v: real, meta: EvalMeta)

  datatype CacheTag = CheapTag | PartialTag | TruthTag

  datatype EvalCacheKey = EvalCacheKey(x: XMesh, phi: Phi, envRev: EnvRev)

  datatype DecisionCacheKey =
    DecisionCacheKey(x: XMesh, phi: Phi, envRev: EnvRev, policyRev: nat, tag: CacheTag)

  /** A single unit of work: one fidelity step of one candidate. */
  datatype WorkItem = WorkItem(
    candId: nat,
    x: XMesh,
    phiIdx: nat,
    phi: Phi,
    envRev: EnvRev,
    policyRev: nat,
    incumbentId: nat)

  /** Element `i` of `s`, or `d` when `s` is too short. */
  function GetOr<T>(s: seq<T>, i: nat, d: T): T {
    if i < |s| then s[i] else d
  }

  /** `n` copies of `v`. */
  function Fill<T>(n: nat, v: T): (r: seq<T>)
    ensures |r| == n
    ensures forall i :: 0 <= i < n ==> r[i] == v
  {
    seq(n, _ => v)
  }

  function Max(a: real, b: real): real {
    if a < b then b else a
  }

  function Min(a: real, b: real): real {
    if b < a then b else a
  }

  function Clamp(x: real, lo: real, hi: real): real {
    if x < lo then lo else if hi < x then hi else x
  }

  function MaxInt(a: int, b: int): int {
    if a < b then b else a
  }

  function MinInt(a: int, b: int): int {
    if b < a then b else a
  }

  function Abs(x: real): real {
    if x < 0.0 then -x else x
  }

  /** Rounding half away from zero. */
  function Round(z: real): int {
    if z >= 0.0 then (z + 0.5).Floor else -((-z + 0.5).Floor)
  }
}
