/** The reconciler's copy of a custom resource, and the two writes that every reconciler makes to it. */
module CustomResources {
  import opened Wrappers
  import opened Resources
  import opened Outside
  import opened FinalizerProtocol
  import opened PassRuns

  /** A copy read from the API server; finalizers and status are changed in place and then written back. */
  class CustomResource<S> {
    const name: ResourceName
    const spec: S
    var copy: Obj

    constructor (name: ResourceName, spec: S, copy: Obj)
      ensures this.name == name && this.spec == spec && this.copy == copy
    {
      this.name, this.spec, this.copy := name, spec, copy;
    }
  }

  ghost function Versions<S>(world: World, resource: CustomResource<S>): History
    reads world`resources
  {
    HistoryOf(world.resources, resource.name)
  }

  /** The pass stored the finalizer, with the server as it found it, before it changed the server. */
  ghost predicate StoredFirst(before: seq<Record>, after: seq<Record>, name: ResourceName, was: Pg, now: Pg) {
    && before <= after && (now != was ==> |after| > |before|)
    && (|after| > |before| ==>
         var first := after[|before|];
         first.name == name && first.pg == was && first.stored.finalizer)
  }

  /** The pass let go of the finalizer, if at all, with the server as the pass left it. */
  ghost predicate ReleasedLast(before: seq<Record>, after: seq<Record>, name: ResourceName, now: Pg) {
    after == before ||
    (|after| == |before| + 1 && before <= after &&
     var last := after[|before|];
     last.name == name && last.pg == now && !last.stored.finalizer)
  }

  ghost predicate Unedited(world: World) { forall n :: world.edits(n) == [] }

  /** The version with the finalizer is the latest, so that the status can be written on it. */
  lemma FinalizerIsLatest(o: Obj, h: History)
    requires !o.deleting && IsLatest(h, o.version)
    ensures IsLatest(GatedHistory(o, h, []), GatedCopy(o, h, []).version)
  {
  }

  /** Puts the finalizer in place, unless it is there. */
  method AddFinalizer<S>(world: World, resource: CustomResource<S>) returns (err: bool, ghost gate: seq<Edit>)
    modifies resource`copy, world`calls, world`writes, world`resources, world`puts
    ensures world.writes == old(world.writes) + if old(resource.copy).finalizer then 0 else 1
    ensures world.calls == old(world.calls) + if old(resource.copy).finalizer then 0 else 1
    ensures gate == if old(resource.copy).finalizer then [] else world.edits(old(world.calls))
    ensures var o, h := old(resource.copy), old(Versions(world, resource));
            && (err <==> !o.finalizer && (world.fails(old(world.calls)) || !IsLatest(EditedAll(h, gate), o.version)))
            && (err ==> Versions(world, resource) == EditedAll(h, gate) && world.puts == old(world.puts))
            && (!err && !o.deleting ==>
                 Versions(world, resource) == GatedHistory(o, h, gate) && resource.copy == GatedCopy(o, h, gate))
            && (!err ==>
                 world.puts == old(world.puts) +
                   (if o.finalizer then [] else [Record(world.pg, resource.name, o.(finalizer := true))]))
    ensures world.resources == if old(resource.copy).finalizer then old(world.resources)
                               else old(world.resources)[resource.name := Versions(world, resource)]
    ensures resource.copy == old(resource.copy).(finalizer := true, version := resource.copy.version)
  {
    hide EditedAll, IsLatest, Append;
    err, gate := false, [];
    if !resource.copy.finalizer {
      gate := world.edits(world.calls);
      resource.copy := resource.copy.(finalizer := true);
      var version;
      err, version := world.PutResource(resource.name, resource.copy);
      if !err { resource.copy := resource.copy.(version := version); }
    }
  }

  /** Lets go of the resource. */
  method ReleaseFinalizer<S>(world: World, resource: CustomResource<S>) returns (err: bool, ghost release: seq<Edit>)
    modifies resource`copy, world`calls, world`writes, world`resources, world`puts
    ensures world.writes == old(world.writes) + 1 && world.calls == old(world.calls) + 1
    ensures release == world.edits(old(world.calls))
    ensures world.resources == old(world.resources)[resource.name := Versions(world, resource)]
    ensures resource.copy == old(resource.copy).(finalizer := false, version := resource.copy.version)
    ensures var o, h := old(resource.copy), EditedAll(old(Versions(world, resource)), release);
            && (err <==> world.fails(old(world.calls)) || !IsLatest(h, o.version))
            && Versions(world, resource) == (if err then h else Append(h, o.(finalizer := false)))
            && world.puts == old(world.puts) +
                 if err then [] else [Record(world.pg, resource.name, o.(finalizer := false))]
  {
    hide EditedAll, IsLatest, Append;
    release := world.edits(world.calls);
    resource.copy := resource.copy.(finalizer := false);
    var version;
    err, version := world.PutResource(resource.name, resource.copy);
    if !err { resource.copy := resource.copy.(version := version); }
  }

  /** Reports success, unless it has been reported. */
  method MarkSucceeded<S>(world: World, resource: CustomResource<S>) returns (err: bool, ghost status: seq<Edit>)
    modifies resource`copy, world`calls, world`writes, world`resources, world`puts
    ensures world.resources == if old(resource.copy).succeeded then old(world.resources)
                               else old(world.resources)[resource.name := Versions(world, resource)]
    ensures resource.copy.succeeded
    ensures world.writes == old(world.writes) + if old(resource.copy).succeeded then 0 else 1
    ensures world.calls == old(world.calls) + if old(resource.copy).succeeded then 0 else 1
    ensures status == if old(resource.copy).succeeded then [] else world.edits(old(world.calls))
    ensures resource.copy == if old(resource.copy).succeeded then old(resource.copy)
                             else old(resource.copy).(succeeded := true, version := resource.copy.version)
    ensures var o, h := old(resource.copy), old(Versions(world, resource));
            && (err <==> !o.succeeded && (world.fails(old(world.calls)) || !IsLatest(EditedAll(h, status), o.version)))
            && Versions(world, resource) ==
                 (if o.succeeded then h
                  else if err then EditedAll(h, status)
                  else Append(EditedAll(h, status), o.(succeeded := true)))
            && old(world.puts) <= world.puts
  {
    hide EditedAll, IsLatest, Append;
    err, status := false, [];
    if !resource.copy.succeeded {
      status := world.edits(world.calls);
      resource.copy := resource.copy.(succeeded := true);
      var version;
      err, version := world.PutResource(resource.name, resource.copy);
      if !err { resource.copy := resource.copy.(version := version); }
    }
  }
}
