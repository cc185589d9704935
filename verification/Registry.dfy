/** The two model registries: the engine's string-keyed map (internal/inference/onnx_runtime.go)
    and the manager's (internal/model/model.go), joined by the tracing wrappers. */
module Registry {
  import opened Values
  import opened ModelKeys

  /** A registered model.  The engine and the manager each keep one. */
  datatype Model = Model(id: string, version: string, path: string)

  /** What LoadModel meets on disk.  created: which of the session slots it wants can be created. */
  datatype File = Missing | Corrupt | Inputless | Usable(created: seq<bool>)

  predicate Works(file: File) {
    file.Usable? && false !in file.created
  }

  datatype Reply = Done | Found(model: Model) | Failed(error: Error) | Hangs

  /** stuck: the engine lock is held by a load that never returns, because a slot could not be created
      (module LoadRefinement says why). */
  datatype State = State(engine: map<string, Model>, stuck: bool, manager: map<string, Model>)

  const EMPTY := State(map[], false, map[])

  // ---- The engine alone ----

  datatype EngineRequest =
    | Load(m: Model, file: File)
    | Get(id: string, version: string)
    | Unload(id: string, version: string)

  /** Lookups build their key before they take the lock, loads and unloads after. */
  function EngineApply(s: State, r: EngineRequest): (State, Reply) {
    if s.stuck && !(r.Get? && ModelKey(r.id, r.version).Err?) then (s, Hangs)
    else match r
      case Load(m, file) =>
        (match ModelKey(m.id, m.version)
         case Err(e) => (s, Failed(e))
         case Ok(key) =>
           if key in s.engine then (s, Failed(ModelAlreadyExists))
           else match file
             case Missing => (s, Failed(FileUnreadable))
             case Corrupt => (s, Failed(BadModelFile))
             case Inputless => (s, Failed(BadModelFile))
             case Usable(created) =>
               if false in created then (s.(stuck := true), Hangs) else (s.(engine := s.engine[key := m]), Done))
      case Get(id, version) =>
        (match ModelKey(id, version)
         case Err(e) => (s, Failed(e))
         case Ok(key) =>
           if key in s.engine then (s, Found(s.engine[key].(version := version))) else (s, Failed(ModelNotFound)))
      case Unload(id, version) =>
        (match ModelKey(id, version)
         case Err(e) => (s, Failed(e))
         case Ok(key) =>
           if key in s.engine then (s.(engine := s.engine - {key}), Done) else (s, Failed(ModelNotFound)))
  }

  /** A load that gets as far as creating slots, one of which cannot be created. */
  predicate Strands(s: State, m: Model, file: File) {
    Accepted(m.id, m.version) && ManagerKey(m.id, m.version) !in s.engine && file.Usable? && false in file.created
  }

  /** A load adds its model exactly when the lock is free, the pair is accepted and new, and the file and all
      its slots are good.  Every other load leaves both maps as they were; it never returns when the lock is
      never released, and otherwise names the first fault. */
  lemma EngineLoadsIff(s: State, m: Model, file: File)
    ensures var (s', a) := EngineApply(s, Load(m, file)); var key := ManagerKey(m.id, m.version);
            && (a == Done <==> !s.stuck && Accepted(m.id, m.version) && key !in s.engine && Works(file))
            && s' == (if a == Done then s.(engine := s.engine[key := m]) else s.(stuck := s'.stuck))
            && (s'.stuck <==> s.stuck || Strands(s, m, file)) && (a == Hangs <==> s'.stuck)
            && (!s.stuck && !Accepted(m.id, m.version) ==> a == Failed(ModelKey(m.id, m.version).error))
            && (!s.stuck && Accepted(m.id, m.version) && key in s.engine ==> a == Failed(ModelAlreadyExists))
            && (!s.stuck && Accepted(m.id, m.version) && key !in s.engine && !file.Usable? ==>
                  a == Failed(if file.Missing? then FileUnreadable else BadModelFile))
  {
    AcceptedKey(m.id, m.version);
  }

  /** A lookup changes nothing and finds exactly what is loaded under its key. */
  lemma EngineFindsIff(s: State, id: string, version: string)
    ensures var (s', a) := EngineApply(s, Get(id, version)); var key := ManagerKey(id, version);
            && s' == s && (a.Found? <==> !s.stuck && Accepted(id, version) && key in s.engine)
            && (a.Found? ==> a.model == s.engine[key].(version := version))
            && (!Accepted(id, version) ==> a == Failed(ModelKey(id, version).error))
            && (Accepted(id, version) ==> (a == Hangs <==> s.stuck))
            && (Accepted(id, version) && !s.stuck && key !in s.engine ==> a == Failed(ModelNotFound))
  {
    AcceptedKey(id, version);
  }

  /** An unload removes its key and no other, exactly when it is there. */
  lemma EngineUnloadsIff(s: State, id: string, version: string)
    ensures var (s', a) := EngineApply(s, Unload(id, version)); var key := ManagerKey(id, version);
            && (a == Done <==> !s.stuck && Accepted(id, version) && key in s.engine)
            && s'.engine == (if a == Done then s.engine - {key} else s.engine)
            && s'.stuck == s.stuck && s'.manager == s.manager && (a == Hangs <==> s.stuck)
            && (!s.stuck && !Accepted(id, version) ==> a == Failed(ModelKey(id, version).error))
            && (!s.stuck && Accepted(id, version) && key !in s.engine ==> a == Failed(ModelNotFound))
  {
    AcceptedKey(id, version);
  }

  /** The registry the engine is meant to be: a map from (id, version). */
  datatype Pairs = Pairs(loaded: map<(string, string), Model>, stuck: bool)

  function PairApply(p: Pairs, r: EngineRequest): (Pairs, Reply) {
    if p.stuck && !(r.Get? && !Accepted(r.id, r.version)) then (p, Hangs)
    else match r
      case Load(m, file) =>
        var k := (m.id, m.version);
        if !Accepted(m.id, m.version) then (p, Failed(ModelKey(m.id, m.version).error))
        else if k in p.loaded then (p, Failed(ModelAlreadyExists))
        else (match file
              case Missing => (p, Failed(FileUnreadable))
              case Corrupt => (p, Failed(BadModelFile))
              case Inputless => (p, Failed(BadModelFile))
              case Usable(created) =>
                if false in created then (p.(stuck := true), Hangs) else (p.(loaded := p.loaded[k := m]), Done))
      case Get(id, version) =>
        if !Accepted(id, version) then (p, Failed(ModelKey(id, version).error))
        else if (id, version) in p.loaded then (p, Found(p.loaded[(id, version)]))
        else (p, Failed(ModelNotFound))
      case Unload(id, version) =>
        if !Accepted(id, version) then (p, Failed(ModelKey(id, version).error))
        else if (id, version) in p.loaded then (p.(loaded := p.loaded - {(id, version)}), Done)
        else (p, Failed(ModelNotFound))
  }

  /** The engine map holds exactly the pairs' models, each under its encoded key. */
  ghost predicate Represents(s: State, p: Pairs) {
    && s.stuck == p.stuck
    && (forall id, version :: (id, version) in p.loaded ==>
          Accepted(id, version) && ManagerKey(id, version) in s.engine
          && s.engine[ManagerKey(id, version)] == p.loaded[(id, version)])
    && (forall key :: key in s.engine ==> Owned(s.engine[key], key, p))
  }

  ghost predicate Owned(m: Model, key: string, p: Pairs) {
    (m.id, m.version) in p.loaded && key == ManagerKey(m.id, m.version)
  }

  lemma {:induction false} KeyLookup(s: State, p: Pairs, id: string, version: string)
    requires Represents(s, p) && Accepted(id, version)
    ensures ManagerKey(id, version) in s.engine <==> (id, version) in p.loaded
    ensures (id, version) in p.loaded ==>
              s.engine[ManagerKey(id, version)] == p.loaded[(id, version)]
              && p.loaded[(id, version)].id == id && p.loaded[(id, version)].version == version
  {
    var key := ManagerKey(id, version);
    if key in s.engine {
      var m := s.engine[key];
      assert Owned(m, key, p);
      KeyInjective(id, version, m.id, m.version);
    }
  }

  /** One request behaves on encoded keys as it does on pairs, so the models of other pairs are
      out of its reach. */
  lemma PairStep(s: State, p: Pairs, r: EngineRequest)
    requires Represents(s, p)
    ensures EngineApply(s, r).1 == PairApply(p, r).1
    ensures Represents(EngineApply(s, r).0, PairApply(p, r).0)
  {
    var id := if r.Load? then r.m.id else r.id;
    var version := if r.Load? then r.m.version else r.version;
    AcceptedKey(id, version);
    if Accepted(id, version) {
      KeyLookup(s, p, id, version);
      var s', p' := EngineApply(s, r).0, PairApply(p, r).0;
      forall a, b | (a, b) in p'.loaded
        ensures Accepted(a, b) && ManagerKey(a, b) in s'.engine && s'.engine[ManagerKey(a, b)] == p'.loaded[(a, b)]
      {
        if (a, b) != (id, version) {
          assert (a, b) in p.loaded;
          KeyInjective(a, b, id, version);
        }
      }
      forall key | key in s'.engine
        ensures Owned(s'.engine[key], key, p')
      {
        if key != ManagerKey(id, version) {
          assert Owned(s.engine[key], key, p);
        }
      }
    }
  }

  function EngineRun(s: State, rs: seq<EngineRequest>): seq<Reply>
    decreases |rs|
  {
    if rs == [] then []
    else
      var (s1, a) := EngineApply(s, rs[0]);
      [a] + EngineRun(s1, rs[1..])
  }

  function PairRun(p: Pairs, rs: seq<EngineRequest>): seq<Reply>
    decreases |rs|
  {
    if rs == [] then []
    else
      var (p1, a) := PairApply(p, rs[0]);
      [a] + PairRun(p1, rs[1..])
  }

  /** Every run of loads, lookups and unloads answers as the map from pairs does. */
  lemma {:induction false} EngineIsPairMap(s: State, p: Pairs, rs: seq<EngineRequest>)
    requires Represents(s, p)
    ensures EngineRun(s, rs) == PairRun(p, rs)
    decreases |rs|
  {
    if rs != [] {
      PairStep(s, p, rs[0]);
      EngineIsPairMap(EngineApply(s, rs[0]).0, PairApply(p, rs[0]).0, rs[1..]);
    }
  }

  // ---- Both registries, through the tracing wrappers ----

  /** readable: the manager can open and hash the file.  signed: its signature check passes. */
  datatype Request =
    | LoadTraced(m: Model, readable: bool, signed: bool, file: File)
    | UnloadTraced(id: string, version: string)
    | Close

  function ManagerLoad(managed: map<string, Model>, m: Model, readable: bool, signed: bool)
    : (map<string, Model>, Reply)
  {
    var key := ManagerKey(m.id, m.version);
    if key in managed then (managed, Failed(ModelAlreadyExists))
    else if !readable then (managed, Failed(FileUnreadable))
    else (managed[key := m], if signed then Done else Failed(BadSignature))
  }

  function ManagerUnload(managed: map<string, Model>, id: string, version: string): (map<string, Model>, Reply) {
    var key := ManagerKey(id, version);
    if key in managed then (managed - {key}, Done) else (managed, Failed(ModelNotFound))
  }

  function Apply(s: State, r: Request): (State, Reply) {
    match r
    case LoadTraced(m, readable, signed, file) =>
      var (managed, a) := ManagerLoad(s.manager, m, readable, signed);
      if a.Failed? then (s.(manager := managed), a) else EngineApply(s.(manager := managed), Load(m, file))
    case UnloadTraced(id, version) =>
      var (managed, a) := ManagerUnload(s.manager, id, version);
      if a.Failed? then (s.(manager := managed), a) else EngineApply(s.(manager := managed), Unload(id, version))
    case Close => if s.stuck then (s, Hangs) else (s.(engine := map[]), Done)
  }

  /** One traced load.  Its key becomes new in the manager exactly when it was not there and the file is
      readable, whatever the signature check and the engine then say: a load that fails after that is not
      rolled back.  A duplicate or an unreadable file leaves both registries alone. */
  lemma LoadRegistersIff(s: State, m: Model, readable: bool, signed: bool, file: File)
    ensures var (s', a) := Apply(s, LoadTraced(m, readable, signed, file)); var key := ManagerKey(m.id, m.version);
            && (key in s'.manager && key !in s.manager <==> key !in s.manager && readable)
            && (key !in s.manager && readable ==> s'.manager == s.manager[key := m])
            && (key in s.manager ==> s' == s && a == Failed(ModelAlreadyExists))
            && (key !in s.manager && !readable ==> s' == s && a == Failed(FileUnreadable))
            && (key !in s.manager && readable && !signed ==>
                  s'.engine == s.engine && s'.stuck == s.stuck && a == Failed(BadSignature))
  {
  }

  /** What the engine does in a traced load that the manager has let through: it adds the model exactly when
      it would have done so alone, and the manager keeps it in any case. */
  lemma LoadReachesEngine(s: State, m: Model, file: File)
    requires ManagerKey(m.id, m.version) !in s.manager
    ensures var (s', a) := Apply(s, LoadTraced(m, true, true, file)); var key := ManagerKey(m.id, m.version);
            && (a == Done <==> !s.stuck && Accepted(m.id, m.version) && key !in s.engine && Works(file))
            && s'.engine == (if a == Done then s.engine[key := m] else s.engine)
            && s'.manager == s.manager[key := m]
            && (s'.stuck <==> s.stuck || Strands(s, m, file)) && (a == Hangs <==> s'.stuck)
  {
    EngineLoadsIff(s.(manager := s.manager[ManagerKey(m.id, m.version) := m]), m, file);
  }

  /** One traced unload: the manager forgets the key whenever it has it, and the engine only if it would have
      done so alone. */
  lemma TracedUnloadIff(s: State, id: string, version: string)
    ensures var (s', a) := Apply(s, UnloadTraced(id, version)); var key := ManagerKey(id, version);
            && s'.manager == s.manager - {key} && s'.stuck == s.stuck
            && (a == Done <==> key in s.manager && !s.stuck && Accepted(id, version) && key in s.engine)
            && s'.engine == (if a == Done then s.engine - {key} else s.engine)
            && (key !in s.manager ==> a == Failed(ModelNotFound))
  {
    var key := ManagerKey(id, version);
    EngineUnloadsIff(s.(manager := s.manager - {key}), id, version);
    assert key !in s.manager ==> s.manager - {key} == s.manager;
  }

  /** Close forgets every model of the engine and none of the manager; it waits for a lock like any other. */
  lemma CloseEmptiesEngine(s: State)
    ensures var (s', a) := Apply(s, Close);
            s'.manager == s.manager && s'.stuck == s.stuck
            && (if s.stuck then a == Hangs && s' == s else a == Done && |s'.engine| == 0)
  {
  }

  /** Every engine key is the key of an accepted pair, and the manager has it too. */
  ghost predicate Covered(s: State) {
    && s.engine.Keys <= s.manager.Keys
    && forall key :: key in s.engine ==> Accepted(s.engine[key].id, s.engine[key].version)
                                         && key == ManagerKey(s.engine[key].id, s.engine[key].version)
  }

  /** The one call that leaves the engine with a model the manager has forgotten: unloading the id
      "id:version" of a loaded pair, which the manager takes and the engine refuses. */
  lemma CoverageBrokenIff(s: State, r: Request)
    requires Covered(s) && !s.stuck
    ensures Covered(Apply(s, r).0)
       <==> !(r.UnloadTraced? && ':' in r.id && r.version == "" && r.id in s.engine)
  {
    if r.UnloadTraced? {
      var key := ManagerKey(r.id, r.version);
      AcceptedKey(r.id, r.version);
      if !Accepted(r.id, r.version) && key in s.engine {
        RejectedCollision(r.id, r.version, s.engine[key].id, s.engine[key].version);
        ColonIn(s.engine[key].id, s.engine[key].version);
        assert key !in Apply(s, r).0.manager;
      }
    } else if r.LoadTraced? {
      AcceptedKey(r.m.id, r.m.version);
    }
  }

  lemma ColonIn(a: string, b: string)
    ensures ':' in a + ":" + b
  {
    assert (a + ":" + b)[|a|] == ':';
  }

  /** A concrete run into it: load ("a", "b"), then unload ("a:b", ""). */
  lemma ColonUnloadSplitsRegistries(m: Model, file: File)
    requires m.id == "a" && m.version == "b" && Works(file)
    ensures var s := Apply(EMPTY, LoadTraced(m, true, true, file)).0;
            var s' := Apply(s, UnloadTraced("a:b", "")).0;
            "a:b" in s'.engine && "a:b" !in s'.manager
  {
    assert "a" + ":" + "b" == "a:b";
    assert "a:b"[1] == ':';
  }

  predicate AcceptedRequest(r: Request) {
    match r
    case LoadTraced(m, _, _, _) => Accepted(m.id, m.version)
    case UnloadTraced(id, version) => Accepted(id, version)
    case Close => true
  }

  function KeyOf(r: Request): string
    requires !r.Close?
  {
    if r.LoadTraced? then ManagerKey(r.m.id, r.m.version) else ManagerKey(r.id, r.version)
  }

  /** A serial caller's run: it ends where a call does not return. */
  function Run(s: State, rs: seq<Request>): (State, seq<Reply>)
    decreases |rs|
  {
    if rs == [] || s.stuck then (s, [])
    else
      var (s1, a) := Apply(s, rs[0]);
      var (s2, as1) := Run(s1, rs[1..]);
      (s2, [a] + as1)
  }

  ghost function Orphans(s: State): set<string> {
    s.manager.Keys - s.engine.Keys
  }

  /** Call i of the run left key in the manager alone: a load of it that returned an error or never
      returned, or an engine Close that dropped it. */
  ghost predicate Orphaned(s: State, rs: seq<Request>, key: string, i: nat) {
    && i < |rs| && i < |Run(s, rs).1|
    && if rs[i].Close? then key in Run(s, rs[..i]).0.engine
       else rs[i].LoadTraced? && KeyOf(rs[i]) == key && Run(s, rs).1[i] != Done
  }

  /** From call i on nobody loads key successfully or unloads it. */
  ghost predicate Untouched(rs: seq<Request>, replies: seq<Reply>, key: string, i: nat) {
    forall j :: i <= j < |replies| && j < |rs| && !rs[j].Close? && KeyOf(rs[j]) == key ==>
      rs[j].LoadTraced? && replies[j] != Done
  }

  ghost predicate Culprit(s: State, rs: seq<Request>, key: string, i: nat) {
    Orphaned(s, rs, key, i) && Untouched(rs, Run(s, rs).1, key, i + 1)
  }

  lemma CulpritLater(s: State, rs: seq<Request>, key: string, i: nat)
    requires rs != [] && !s.stuck && Culprit(Apply(s, rs[0]).0, rs[1..], key, i)
    ensures Culprit(s, rs, key, i + 1)
  {
    var s1, replies := Apply(s, rs[0]).0, Run(s, rs).1;
    assert rs[..i + 1][0] == rs[0] && rs[..i + 1][1..] == rs[1..][..i];
    assert Run(s, rs[..i + 1]).0 == Run(s1, rs[1..][..i]).0;
    forall j | i + 2 <= j < |replies| && j < |rs| && !rs[j].Close? && KeyOf(rs[j]) == key
      ensures rs[j].LoadTraced? && replies[j] != Done
    {
      assert rs[j] == rs[1..][j - 1] && replies[j] == Run(s1, rs[1..]).1[j - 1];
    }
  }

  lemma UntouchedEarlier(rs: seq<Request>, replies: seq<Reply>, a: Reply, r: Request, key: string)
    requires Untouched(rs, replies, key, 0)
    ensures Untouched([r] + rs, [a] + replies, key, 1)
    ensures (!r.Close? && KeyOf(r) == key ==> r.LoadTraced? && a != Done) ==> Untouched([r] + rs, [a] + replies, key, 0)
  {
  }

  /** Serial runs with accepted pairs keep every engine key in the manager.  A key that only the manager has
      at the end was there from the start or comes from a load that failed or from a Close that dropped it,
      and has been neither loaded nor unloaded since. */
  lemma {:induction false} OrphansHaveCulprits(s: State, rs: seq<Request>, key: string)
    requires Covered(s) && forall i :: 0 <= i < |rs| ==> AcceptedRequest(rs[i])
    ensures Covered(Run(s, rs).0)
    ensures key in Orphans(Run(s, rs).0) ==>
              (key in Orphans(s) && Untouched(rs, Run(s, rs).1, key, 0)) || exists i: nat :: Culprit(s, rs, key, i)
    decreases |rs|
  {
    if rs != [] && !s.stuck {
      var (s1, a) := Apply(s, rs[0]);
      StepOrphans(s, rs[0]);
      OrphansHaveCulprits(s1, rs[1..], key);
      if key in Orphans(Run(s, rs).0) {
        if i: nat :| Culprit(s1, rs[1..], key, i) {
          CulpritLater(s, rs, key, i);
        } else {
          UntouchedEarlier(rs[1..], Run(s1, rs[1..]).1, a, rs[0], key);
          assert rs == [rs[0]] + rs[1..];
          if key !in Orphans(s) {
            assert rs[..0] == [];
            assert Culprit(s, rs, key, 0);
          }
        }
      }
    }
  }

  lemma StepOrphans(s: State, r: Request)
    requires Covered(s) && !s.stuck && AcceptedRequest(r)
    ensures Covered(Apply(s, r).0)
    ensures forall key :: key in Orphans(Apply(s, r).0) && key !in Orphans(s) ==>
              if r.Close? then key in s.engine
              else r.LoadTraced? && KeyOf(r) == key && Apply(s, r).1 != Done
    ensures forall key :: key in Orphans(Apply(s, r).0) && !r.Close? && KeyOf(r) == key ==>
              r.LoadTraced? && Apply(s, r).1 != Done
  {
    CoverageBrokenIff(s, r);
    if !r.Close? {
      AcceptedKey(if r.LoadTraced? then r.m.id else r.id, if r.LoadTraced? then r.m.version else r.version);
    }
  }

  /** One unload clears an orphan, and then a retry is not refused as a duplicate: it succeeds
      whenever the file works. */
  lemma UnloadClearsForRetry(s: State, m: Model, file: File)
    requires Covered(s) && !s.stuck && Accepted(m.id, m.version) && Works(file)
    requires ManagerKey(m.id, m.version) in Orphans(s)
    ensures var s1 := Apply(s, UnloadTraced(m.id, m.version)).0;
            Apply(s, LoadTraced(m, true, true, file)).1 == Failed(ModelAlreadyExists)
            && Apply(s1, LoadTraced(m, true, true, file)).1 == Done
  {
    AcceptedKey(m.id, m.version);
  }

  // ---- The objects ----

  class ModelManager {
    var models: map<string, Model>

    constructor ()
      ensures models == map[]
    {
      models := map[];
    }

    method LoadModel(m: Model, readable: bool, signed: bool) returns (a: Reply)
      modifies this
      ensures (models, a) == ManagerLoad(old(models), m, readable, signed)
      ensures ManagerKey(m.id, m.version) in old(models) ==> models == old(models) && a == Failed(ModelAlreadyExists)
      ensures ManagerKey(m.id, m.version) !in old(models) && !readable ==>
                models == old(models) && a == Failed(FileUnreadable)
      ensures ManagerKey(m.id, m.version) !in old(models) && readable ==>
                models == old(models)[ManagerKey(m.id, m.version) := m] && (a == Done <==> signed)
                && (a == Failed(BadSignature) <==> !signed)
    {
      var key := ManagerKey(m.id, m.version);
      if key in models {
        return Failed(ModelAlreadyExists);
      }
      if !readable {
        return Failed(FileUnreadable);
      }
      models := models[key := m];
      a := if signed then Done else Failed(BadSignature);
    }

    method GetModel(id: string, version: string) returns (m: Option<Model>)
      ensures m.Some? <==> ManagerKey(id, version) in models
      ensures m.Some? ==> m.value == models[ManagerKey(id, version)]
    {
      var key := ManagerKey(id, version);
      m := if key in models then Some(models[key]) else None;
    }

    method UnloadModel(id: string, version: string) returns (a: Reply)
      modifies this
      ensures (models, a) == ManagerUnload(old(models), id, version)
      ensures models == old(models) - {ManagerKey(id, version)}
      ensures ManagerKey(id, version) in old(models) ==> a == Done
      ensures ManagerKey(id, version) !in old(models) ==> a == Failed(ModelNotFound)
    {
      var key := ManagerKey(id, version);
      if key !in models {
        return Failed(ModelNotFound);
      }
      models := models - {key};
      a := Done;
    }
  }

  class OnnxEngine {
    var models: map<string, Model>
    var stuck: bool
    const manager: ModelManager

    ghost function Contents(): State
      reads this, manager
    {
      State(models, stuck, manager.models)
    }

    constructor ()
      ensures fresh(manager) && Contents() == EMPTY
    {
      models, stuck := map[], false;
      manager := new ModelManager();
    }

    method LoadModel(m: Model, file: File) returns (a: Reply)
      modifies this
      ensures (Contents(), a) == EngineApply(old(Contents()), Load(m, file))
    {
      if stuck {
        return Hangs;
      }
      var key := ModelKey(m.id, m.version);
      if key.Err? {
        return Failed(key.error);
      }
      if key.value in models {
        return Failed(ModelAlreadyExists);
      }
      match file
      case Missing => a := Failed(FileUnreadable);
      case Corrupt => a := Failed(BadModelFile);
      case Inputless => a := Failed(BadModelFile);
      case Usable(created) =>
        for i := 0 to |created|
          invariant false !in created[..i] && Contents() == old(Contents())
        {
          if !created[i] {
            stuck := true;
            return Hangs;
          }
        }
        models := models[key.value := m];
        a := Done;
    }

    method GetModelInfo(id: string, version: string) returns (a: Reply)
      ensures (Contents(), a) == EngineApply(Contents(), Get(id, version))
    {
      var key := ModelKey(id, version);
      a := if key.Err? then Failed(key.error)
      else if stuck then Hangs
      else if key.value !in models then Failed(ModelNotFound)
      else Found(models[key.value].(version := version));
    }

    method UnloadModel(id: string, version: string) returns (a: Reply)
      modifies this
      ensures (Contents(), a) == EngineApply(old(Contents()), Unload(id, version))
    {
      var key := ModelKey(id, version);
      if stuck || key.Err? {
        return if stuck then Hangs else Failed(key.error);
      }
      if key.value !in models {
        return Failed(ModelNotFound);
      }
      models := models - {key.value};
      a := Done;
    }

    method LoadModelWithTracing(m: Model, readable: bool, signed: bool, file: File) returns (a: Reply)
      modifies this, manager
      ensures (Contents(), a) == Apply(old(Contents()), LoadTraced(m, readable, signed, file))
    {
      a := manager.LoadModel(m, readable, signed);
      if !a.Failed? {
        a := LoadModel(m, file);
      }
    }

    method UnloadModelWithTracing(id: string, version: string) returns (a: Reply)
      modifies this, manager
      ensures (Contents(), a) == Apply(old(Contents()), UnloadTraced(id, version))
    {
      a := manager.UnloadModel(id, version);
      if !a.Failed? {
        a := UnloadModel(id, version);
      }
    }

    method CloseEngine() returns (a: Reply)
      modifies this
      ensures (Contents(), a) == Apply(old(Contents()), Close)
    {
      if stuck {
        return Hangs;
      }
      models := map[];
      a := Done;
    }
  }
}
