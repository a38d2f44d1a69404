/** The instance controller: the actor that owns the magister's pool of rented
    instances, keyed by their `ip:port`, and serves `Drop` and `GetAll`
    commands one at a time. The channel, the spawned tokio task and the timing are not
    modelled; the commands are a sequence, and the answers of the remote
    destroy requests are an input. */
module InstanceController {
  import opened Wrappers
  import opened Types
  import opened Configuration

  /** The controller's state. */
  datatype Controller = Controller(instances: map<string, VastInstance>, config: Config)

  /** A command sent to the controller. */
  datatype Command = Drop(instanceId: string) | GetAll

  /** What handling one command did, beyond the new state: for `Drop`, the
      destroy request sent for the id, whether the id was known (logged as
      dropped) or not (logged as a warning), and whether the remote destroy
      failed (logged as an error); for `GetAll`, the snapshot sent back. */
  datatype Effect =
    | DestroySent(id: string, known: bool, destroyFailed: bool)
    | Snapshot(instances: map<string, VastInstance>)

  /** The answer of the remote destroy request made for the `k`-th command. */
  type DestroyAnswer = nat -> Result<(), string>

  /** A controller starts with no instances. */
  function New(config: Config): (c: Controller)
    ensures |c.instances| == 0 && c.config == config
  {
    Controller(map[], config)
  }

  /** `Drop`: the id leaves the pool whether or not it was there; every other
      entry stays as it was. The remote destroy's answer is only logged, so the
      new state does not depend on it. */
  function DropInstance(c: Controller, id: string): (r: Controller)
    ensures id !in r.instances
    ensures forall k :: k in r.instances <==> k in c.instances && k != id
    ensures forall k :: k in r.instances ==> r.instances[k] == c.instances[k]
    ensures |r.instances| == if id in c.instances then |c.instances| - 1 else |c.instances|
    ensures r.config == c.config
  {
    Controller(c.instances - {id}, c.config)
  }

  /** Dropping an id that is not in the pool leaves the pool unchanged;
      dropping the same id twice is dropping it once. */
  lemma DropIdempotent(c: Controller, id: string)
    ensures id !in c.instances ==> DropInstance(c, id) == c
    ensures DropInstance(DropInstance(c, id), id) == DropInstance(c, id)
  {
    if id !in c.instances {
      assert c.instances - {id} == c.instances;
    }
  }

  /** Handling one command: the new state and what was sent out. */
  function Step(c: Controller, cmd: Command, destroy: Result<(), string>): (r: (Controller, Effect))
    ensures r.0.config == c.config
    ensures cmd.GetAll? ==> r.0 == c && r.1.Snapshot? && r.1.instances == c.instances
    ensures cmd.Drop? ==> r.0 == DropInstance(c, cmd.instanceId) && r.1.DestroySent?
    ensures cmd.Drop? ==> r.1.id == cmd.instanceId && (r.1.known <==> cmd.instanceId in c.instances)
    ensures cmd.Drop? ==> (r.1.destroyFailed <==> destroy.Err?)
  {
    match cmd
    case Drop(id) => (DropInstance(c, id), DestroySent(id, id in c.instances, destroy.Err?))
    case GetAll => (c, Snapshot(c.instances))
  }

  /** The background loop over a sequence of commands: the final state and one
      effect per command, in order. */
  function Run(c: Controller, cmds: seq<Command>, destroy: DestroyAnswer): (r: (Controller, seq<Effect>))
    ensures |r.1| == |cmds|
    ensures r.0.config == c.config
    decreases |cmds|
  {
    if |cmds| == 0 then (c, [])
    else
      var n := |cmds| - 1;
      var before := Run(c, cmds[..n], destroy);
      var after := Step(before.0, cmds[n], destroy(n));
      (after.0, before.1 + [after.1])
  }

  /** The ids of the `Drop` commands. */
  function DroppedIds(cmds: seq<Command>): (ids: set<string>)
    ensures forall i :: 0 <= i < |cmds| && cmds[i].Drop? ==> cmds[i].instanceId in ids
    decreases |cmds|
  {
    if |cmds| == 0 then {}
    else
      var n := |cmds| - 1;
      DroppedIds(cmds[..n]) + (if cmds[n].Drop? then {cmds[n].instanceId} else {})
  }

  /** Every id dropped is the id of some `Drop` command. */
  lemma {:induction false} DroppedIdsExact(cmds: seq<Command>, id: string)
    ensures id in DroppedIds(cmds) <==> exists i :: 0 <= i < |cmds| && cmds[i] == Drop(id)
    decreases |cmds|
  {
    if |cmds| > 0 {
      var n := |cmds| - 1;
      DroppedIdsExact(cmds[..n], id);
      if exists i :: 0 <= i < n && cmds[..n][i] == Drop(id) {
        var i :| 0 <= i < n && cmds[..n][i] == Drop(id);
        assert cmds[i] == Drop(id);
      }
      if exists i :: 0 <= i < |cmds| && cmds[i] == Drop(id) {
        var i :| 0 <= i < |cmds| && cmds[i] == Drop(id);
        if i < n {
          assert cmds[..n][i] == Drop(id);
        }
      }
    }
  }

  /** A run on a prefix of the commands is the start of the run on all of them. */
  lemma RunStep(c: Controller, cmds: seq<Command>, n: nat, destroy: DestroyAnswer)
    requires n < |cmds|
    ensures var before := Run(c, cmds[..n], destroy);
            var after := Step(before.0, cmds[n], destroy(n));
            Run(c, cmds[..n + 1], destroy) == (after.0, before.1 + [after.1])
  {
    assert cmds[..n + 1][..n] == cmds[..n];
    assert cmds[..n + 1][n] == cmds[n];
  }

  /** Nothing is ever added to the pool: after any run, the pool is the
      initial pool without the dropped ids. */
  lemma {:induction false} RunPool(c: Controller, cmds: seq<Command>, destroy: DestroyAnswer)
    ensures Run(c, cmds, destroy).0.instances == c.instances - DroppedIds(cmds)
    decreases |cmds|
  {
    if |cmds| > 0 {
      var n := |cmds| - 1;
      RunPool(c, cmds[..n], destroy);
    }
  }

  /** The state after a run does not depend on the answers of the remote
      destroy requests. */
  lemma {:induction false} RunIgnoresDestroyAnswers(c: Controller, cmds: seq<Command>, d1: DestroyAnswer, d2: DestroyAnswer)
    ensures Run(c, cmds, d1).0 == Run(c, cmds, d2).0
    decreases |cmds|
  {
    if |cmds| > 0 {
      RunIgnoresDestroyAnswers(c, cmds[..|cmds| - 1], d1, d2);
    }
  }

  /** The effects of a run on a prefix are a prefix of the effects of the run. */
  lemma {:induction false} RunEffectsPrefix(c: Controller, cmds: seq<Command>, k: nat, destroy: DestroyAnswer)
    requires k <= |cmds|
    ensures Run(c, cmds[..k], destroy).1 == Run(c, cmds, destroy).1[..k]
    decreases |cmds| - k
  {
    if k < |cmds| {
      RunEffectsPrefix(c, cmds, k + 1, destroy);
      RunStep(c, cmds, k, destroy);
      var before := Run(c, cmds[..k], destroy).1;
      var longer := Run(c, cmds[..k + 1], destroy).1;
      assert longer[..k] == before;
      assert Run(c, cmds, destroy).1[..k] == Run(c, cmds, destroy).1[..k + 1][..k];
    } else {
      assert cmds[..k] == cmds;
    }
  }

  /** A `GetAll` answers with the pool as it stands at that point: the initial
      pool without the ids dropped by the commands before it. */
  lemma RunSnapshot(c: Controller, cmds: seq<Command>, k: nat, destroy: DestroyAnswer)
    requires k < |cmds| && cmds[k].GetAll?
    ensures Run(c, cmds, destroy).1[k] == Snapshot(c.instances - DroppedIds(cmds[..k]))
  {
    RunEffectsPrefix(c, cmds, k + 1, destroy);
    RunStep(c, cmds, k, destroy);
    RunPool(c, cmds[..k], destroy);
    assert Run(c, cmds[..k + 1], destroy).1[k] == Run(c, cmds, destroy).1[k];
  }

  /** Each `Drop` sends a destroy request for its id, whether or not the id was
      in the pool, and reports it as known exactly when it still was. */
  lemma RunDestroys(c: Controller, cmds: seq<Command>, k: nat, destroy: DestroyAnswer)
    requires k < |cmds| && cmds[k].Drop?
    ensures var e := Run(c, cmds, destroy).1[k];
            && e.DestroySent?
            && e.id == cmds[k].instanceId
            && (e.known <==> cmds[k].instanceId in c.instances && cmds[k].instanceId !in DroppedIds(cmds[..k]))
            && (e.destroyFailed <==> destroy(k).Err?)
  {
    RunEffectsPrefix(c, cmds, k + 1, destroy);
    RunStep(c, cmds, k, destroy);
    RunPool(c, cmds[..k], destroy);
    assert Run(c, cmds[..k + 1], destroy).1[k] == Run(c, cmds, destroy).1[k];
  }

  /** A controller started with `New` never holds an instance: its pool stays
      empty and every snapshot it sends is empty. */
  lemma NewStaysEmpty(config: Config, cmds: seq<Command>, destroy: DestroyAnswer)
    ensures |Run(New(config), cmds, destroy).0.instances| == 0
    ensures forall k :: 0 <= k < |cmds| && cmds[k].GetAll? ==> Run(New(config), cmds, destroy).1[k] == Snapshot(map[])
  {
    var c := New(config);
    RunPool(c, cmds, destroy);
    assert c.instances - DroppedIds(cmds) == map[];
    forall k | 0 <= k < |cmds| && cmds[k].GetAll?
      ensures Run(c, cmds, destroy).1[k] == Snapshot(map[])
    {
      RunSnapshot(c, cmds, k, destroy);
      assert c.instances - DroppedIds(cmds[..k]) == map[];
    }
  }

  /** On a controller started with `New`, no `Drop` finds its id, yet each
      one still sends its destroy request. */
  lemma NewDropsUnknown(config: Config, cmds: seq<Command>, k: nat, destroy: DestroyAnswer)
    requires k < |cmds| && cmds[k].Drop?
    ensures Run(New(config), cmds, destroy).1[k] == DestroySent(cmds[k].instanceId, false, destroy(k).Err?)
  {
    RunDestroys(New(config), cmds, k, destroy);
  }
}
