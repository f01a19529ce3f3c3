/** The ordered phases of a pinned profile, and which of them have a worker (phase_schedule.py). */
module PhaseDefinitions {

  datatype Phase = Phase(key: string, name: string, tools: string, gate: bool, terminal: bool,
                         timeout: int, turns: int, kind: string, role: string)

  const WORKER := "worker"
  const IMPLEMENTATION := "implementation"
  const REVIEW := "review"
  const DELIVERY := "delivery"

  const ROLES := {WORKER, IMPLEMENTATION, REVIEW, DELIVERY}
  // The empty kind stands for a definition without one.
  const KINDS := {"", "worker", "controller_gate", "human_gate"}

  predicate FieldsValid(p: Phase) {
    && p.name != "" && p.timeout > 0 && p.turns >= 0
    && p.kind in KINDS && p.role in ROLES
    && (p.role != WORKER ==> !p.gate)
  }

  predicate ValidDefinitions(phases: seq<Phase>) {
    && phases != []
    && (forall i :: 0 <= i < |phases| ==> phases[i].key != "" && FieldsValid(phases[i]))
    && (forall i, j :: 0 <= i < j < |phases| ==> phases[i].key != phases[j].key)
    && (forall i, j :: 0 <= i < j < |phases| && phases[i].role != WORKER ==> phases[i].role != phases[j].role)
  }

  /** Accepts exactly the definitions with distinct keys in which a special role names one worker. */
  method ValidateDefinitions(phases: seq<Phase>) returns (ok: bool)
    ensures ok <==> ValidDefinitions(phases)
  {
    if phases == [] {
      return false;
    }
    var keys: set<string>, roles: set<string> := {}, {};
    for i := 0 to |phases|
      invariant ValidDefinitions(phases[..i]) || i == 0
      invariant forall k :: k in keys <==> exists m :: 0 <= m < i && phases[m].key == k
      invariant forall r :: r in roles <==> r != WORKER && exists m :: 0 <= m < i && phases[m].role == r
    {
      var p := phases[i];
      if p.key == "" || p.key in keys || !FieldsValid(p) || (p.role != WORKER && p.role in roles) {
        return false;
      }
      keys := keys + {p.key};
      if p.role != WORKER {
        roles := roles + {p.role};
      }
      assert phases[..i + 1] == phases[..i] + [p];
    }
    assert phases[..|phases|] == phases;
    ok := true;
  }

  predicate EndsExecution(p: Phase) {
    p.gate && p.terminal
  }

  /** Gates have no worker, and a terminal gate hides everything after it. */
  function Workers(phases: seq<Phase>): seq<Phase> {
    if phases == [] || EndsExecution(phases[0]) then []
    else if phases[0].gate then Workers(phases[1..])
    else [phases[0]] + Workers(phases[1..])
  }

  method WorkerPhases(phases: seq<Phase>) returns (workers: seq<Phase>)
    ensures workers == Workers(phases)
  {
    workers := [];
    for i := 0 to |phases|
      invariant workers + Workers(phases[i..]) == Workers(phases)
    {
      if phases[i].gate {
        if phases[i].terminal {
          return;
        }
        continue;
      }
      workers := workers + [phases[i]];
    }
  }

  /** Which phases have a worker, whatever their number. */
  lemma {:induction false} WorkersAre(phases: seq<Phase>, p: Phase)
    ensures p in Workers(phases) <==>
      !p.gate && exists i :: 0 <= i < |phases| && phases[i] == p && forall j :: 0 <= j < i ==> !EndsExecution(phases[j])
  {
    if phases != [] {
      var rest := phases[1..];
      WorkersAre(rest, p);
      if p in Workers(phases) && phases[0] != p {
        var i :| 0 <= i < |rest| && rest[i] == p && forall j :: 0 <= j < i ==> !EndsExecution(rest[j]);
        assert phases[i + 1] == p;
        assert forall j :: 0 <= j < i + 1 ==> !EndsExecution(phases[j]) by {
          assert forall j :: 1 <= j < i + 1 ==> phases[j] == rest[j - 1];
        }
      }
      if !p.gate && exists i :: 0 <= i < |phases| && phases[i] == p && forall j :: 0 <= j < i ==>
        !EndsExecution(phases[j]) {
        var i :| 0 <= i < |phases| && phases[i] == p && forall j :: 0 <= j < i ==> !EndsExecution(phases[j]);
        if i > 0 {
          assert !EndsExecution(phases[0]);
          assert rest[i - 1] == p && forall j :: 0 <= j < i - 1 ==> rest[j] == phases[j + 1];
        }
      }
    }
  }

  predicate DistinctKeys(phases: seq<Phase>) {
    forall i, j :: 0 <= i < j < |phases| ==> phases[i].key != phases[j].key
  }

  /** Worker phases keep the pinned order, so their keys stay distinct. */
  lemma {:induction false} WorkerKeysDistinct(phases: seq<Phase>)
    requires DistinctKeys(phases)
    ensures DistinctKeys(Workers(phases))
    ensures forall p :: p in Workers(phases) ==> p in phases
  {
    if phases != [] {
      WorkerKeysDistinct(phases[1..]);
      assert forall p :: p in phases[1..] ==> p in phases && p.key != phases[0].key;
    }
  }

  /** The first worker with this role; unique when the definitions are valid. */
  function RoleKey(phases: seq<Phase>, role: string): (key: seq<string>)
    ensures |key| <= 1
    ensures key != [] ==> exists p :: p in Workers(phases) && p.role == role && p.key == key[0]
    ensures key == [] ==> forall p :: p in Workers(phases) ==> p.role != role
  {
    FirstWithRole(Workers(phases), role)
  }

  function FirstWithRole(workers: seq<Phase>, role: string): (key: seq<string>)
    ensures |key| <= 1
    ensures key != [] ==> exists p :: p in workers && p.role == role && p.key == key[0]
    ensures key == [] ==> forall p :: p in workers ==> p.role != role
  {
    if workers == [] then []
    else if workers[0].role == role then [workers[0].key]
    else FirstWithRole(workers[1..], role)
  }
}
