/** Node reports and the actions of one cluster check: the vocabulary of src/cluster/leaderManager.ts. */
module LeaderReports {
  import opened Models

  datatype Report = Report(nodeId: int, requiresRestart: bool, averageLoad: real, leaderships: seq<string>)
  {
    function Count(): nat {
      |leaderships|
    }
  }

  /** `LeaderUnknown` is the rejected promise of a health check that cannot determine the Patroni leader. */
  datatype Health = Healthy | Unhealthy | LeaderUnknown

  /** A request to the outside and its outcome. */
  datatype Action =
    | CheckHealth(service: string, health: Health)
    | Promote(service: string, nodeId: int, accepted: bool)
    | Reboot(nodeId: int, accepted: bool)

  /** The outcomes of requests, by the number of requests made before. */
  datatype Outcomes = Outcomes(health: nat -> Health, promotion: nat -> bool, reboot: nat -> bool)

  /** How a handler ends: having acted, without effect, or by throwing. */
  datatype Ending = Acted | NothingDone | Threw

  predicate IsPatroni(services: Registry, id: string) {
    id in services && services[id].Patroni?
  }

  /** The services of the list that are configured Patroni services, in order. */
  function Configured(services: Registry, ids: seq<string>): (configured: seq<string>)
    ensures forall id :: id in configured <==> id in ids && id in services && services[id].Patroni?
  {
    if ids == [] then []
    else
      assert ids == [ids[0]] + ids[1..];
      (if IsPatroni(services, ids[0]) then [ids[0]] else []) + Configured(services, ids[1..])
  }

  /** The health checks of these services, one after the other, as request number `at` and following. */
  function Checks(ids: seq<string>, env: Outcomes, at: nat): (checks: seq<Action>)
    ensures |checks| == |ids|
  {
    seq(|ids|, i requires 0 <= i < |ids| => CheckHealth(ids[i], env.health(at + i)))
  }

  /** Checking goes from front to back. */
  lemma ChecksStep(ids: seq<string>, env: Outcomes, log: seq<Action>, n: nat)
    requires ids != [] && 0 < n <= |ids|
    ensures var checked := log + [CheckHealth(ids[0], env.health(|log|))];
            log + Checks(ids, env, |log|)[..n] == checked + Checks(ids[1..], env, |checked|)[..n - 1]
  {
    var checked := log + [CheckHealth(ids[0], env.health(|log|))];
    var all, rest := Checks(ids, env, |log|), Checks(ids[1..], env, |checked|);
    assert all[0] == CheckHealth(ids[0], env.health(|log|));
    forall i | 0 < i < |ids| ensures all[i] == rest[i - 1] {
    }
    assert all[..n] == [all[0]] + rest[..n - 1];
  }

  function TotalCount(reports: seq<Report>): nat {
    if reports == [] then 0 else TotalCount(reports[..|reports| - 1]) + reports[|reports| - 1].Count()
  }

  /** Rounds up the quotient. */
  function CeilDiv(a: nat, b: nat): (q: nat)
    requires b > 0
    ensures a <= q * b < a + b
  {
    var q := (a + b - 1) / b;
    assert q * b + (a + b - 1) % b == a + b - 1;
    q
  }

  /** `CeilDiv` is at least `q` as soon as the dividend exceeds `q - 1` shares. */
  lemma CeilDivAtLeast(a: nat, b: nat, q: nat)
    requires b > 0 && q > 0 && a > (q - 1) * b
    ensures CeilDiv(a, b) >= q
  {
    var c := CeilDiv(a, b);
    if c < q {
    }
  }
}
