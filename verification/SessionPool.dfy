/** The ONNX engine under concurrency (internal/inference/onnx_runtime.go): any number of Predict
    calls interleaved, one shared action at a time, with loads slot by slot, unloads and Close.  fault
    stands for a Go panic: a send on a closed channel or the use of a nil slot. */
module SessionPool {
  import opened Values
  import opened Inference
  import opened ModelKeys

  datatype Slot = Slot(ins: seq<seq<real>>, outs: seq<seq<real>>)

  /** One load: the slots created, the channel of free ones, and the ones destroyed so far. */
  datatype Instance = Instance(key: string, net: Net, slots: seq<Slot>,
                               pool: seq<nat>, closed: bool, destroyed: seq<nat>)

  datatype Phase =
    | Called(key: string)                                 // has its key, about to take the registry lock
    | Waiting(flats: seq<seq<real>>)                      // in the select on the pool
    | Filling(slot: nat, flats: seq<seq<real>>, next: nat)
    | Reading(slot: nat, got: seq<seq<real>>)
    | Leaving(slot: nat, result: Result<Prediction>)      // the deferred return of the slot
    | Finished(result: Result<Prediction>)

  /** at: the instance the registry lookup found. */
  datatype Call = Call(id: string, version: string, input: Value, at: Option<nat>, phase: Phase, ctxDone: bool)

  /** The registry's writer lock and where its holder stands.  Loading: creating n slots, those in inst
      done.  Cleaning: ranging over the channel of the slots created before one failed. */
  datatype Lock =
    | Free
    | Loading(inst: Instance, n: nat)
    | Cleaning(inst: Instance)
    | Unloading(key: string)
    | Closing(left: set<string>, current: Option<string>)

  datatype State = State(models: map<string, nat>, insts: seq<Instance>, calls: map<nat, Call>, lock: Lock, fault: bool)

  const START := State(map[], [], map[], Free, false)

  datatype Step =
    | Begin(c: nat, id: string, version: string, input: Value)
    | Lookup(c: nat)
    | Checkout(c: nat)
    | GiveUp(c: nat)
    | FillOne(c: nat)
    | RunSession(c: nat, junk: seq<seq<real>>)
    | ReadOne(c: nat)
    | Return(c: nat)
    | CancelCtx(c: nat)
    | LoadBegin(id: string, version: string, net: Net, config: Config)
    | CreateSlot(slot: Slot)
    | CreateFails
    | CleanOne
    | LoadEnd
    | UnloadBegin(id: string, version: string)
    | Drain
    | UnloadEnd
    | CloseBegin
    | ClosePick(key: string)
    | ClosePicked
    | CloseEnd

  function SetPhase(s: State, c: nat, p: Phase): State
    requires c in s.calls
  {
    s.(calls := s.calls[c := s.calls[c].(phase := p)])
  }

  function SetInst(s: State, j: nat, inst: Instance): State
    requires j < |s.insts|
  {
    s.(insts := s.insts[j := inst])
  }

  /** The key whose pool is being closed and emptied under the lock. */
  function Draining(lock: Lock): Option<string> {
    match lock
    case Unloading(key) => Some(key)
    case Closing(_, current) => current
    case _ => None
  }

  /** The two settings that decide how many slots a load creates; None is an unset configuration. */
  type Config = Option<(int, int)>

  /** sessionPoolSize: the session count when positive, else the worker count, else 4; never 0. */
  function SessionPoolSize(config: Config): (n: nat)
    ensures n > 0
    ensures config.Some? && config.value.0 > 0 ==> n == config.value.0
    ensures config.Some? && config.value.0 <= 0 < config.value.1 ==> n == config.value.1
    ensures config.None? || (config.value.0 <= 0 && config.value.1 <= 0) ==> n == 4
  {
    if config.Some? && config.value.0 > 0 then config.value.0
    else if config.Some? && config.value.1 > 0 then config.value.1
    else 4
  }

  /** A receive: the head of the channel, nil from a closed and empty one, else it waits. */
  datatype Received = Head(slot: nat, rest: seq<nat>) | Nil | Waits

  function Receive(inst: Instance): Received {
    if inst.pool != [] then Head(inst.pool[0], inst.pool[1..])
    else if inst.closed then Nil
    else Waits
  }

  /** One turn of a range loop that destroys what it receives. */
  function DestroyHead(inst: Instance): Instance
    requires Receive(inst).Head?
  {
    inst.(pool := Receive(inst).rest, destroyed := inst.destroyed + [Receive(inst).slot])
  }

  predicate Owns(call: Call, j: nat, k: nat) {
    call.at == Some(j) && (call.phase.Filling? || call.phase.Reading? || call.phase.Leaving?) && call.phase.slot == k
  }

  /** Between lookup and return. */
  predicate Live(call: Call, j: nat) {
    call.at == Some(j) && !call.phase.Finished?
  }

  /** A call that has found instance j: its inputs are resolved, or it ends. */
  function Found(call: Call, j: nat, net: Net): (found: Call)
    requires net.Valid()
    ensures found == call.(at := Some(j), phase := found.phase) && (found.phase.Waiting? || found.phase.Finished?)
  {
    match Resolve(net, call.input)
    case Err(e) => call.(at := Some(j), phase := Finished(Err(e)))
    case Ok(flats) => call.(at := Some(j), phase := Waiting(flats))
  }

  /** A call that begins: its key is built or refused before any lock is taken. */
  function NewCall(id: string, version: string, input: Value): Call {
    match ModelKey(id, version)
    case Err(e) => Call(id, version, input, None, Finished(Err(e)), false)
    case Ok(key) => Call(id, version, input, None, Called(key), false)
  }

  /** The registry read of a call. */
  function LookupNext(s: State, c: nat): State
    requires c in s.calls && s.calls[c].phase.Called?
  {
    var call := s.calls[c];
    if call.phase.key !in s.models then SetPhase(s, c, Finished(Err(ModelNotFound)))
    else
      var j := s.models[call.phase.key];
      if j >= |s.insts| || !s.insts[j].net.Valid() then s
      else s.(calls := s.calls[c := Found(call, j, s.insts[j].net)])
  }

  /** A step of a call on its own instance: the new phase and the new instance, if enabled. */
  datatype Move = Blocked | Panic | Moves(phase: Phase, inst: Instance)

  function CheckoutMove(p: Phase, inst: Instance): Move {
    if !p.Waiting? then Blocked
    else match Receive(inst)
      case Head(k, rest) => Moves(Filling(k, p.flats, 0), inst.(pool := rest))
      case Nil => Panic
      case Waits => Blocked
  }

  function FillMove(p: Phase, inst: Instance): Move {
    if !p.Filling? || p.next >= |p.flats| || p.next >= |inst.net.inputs|
       || p.slot >= |inst.slots| || p.next >= |inst.slots[p.slot].ins| then Blocked
    else if |p.flats[p.next]| != inst.net.inputs[p.next].size
      then Moves(Leaving(p.slot, Err(SizeMismatch(p.next))), inst)
    else
      var filled := CastAll(inst.net.wild, inst.net.inputs[p.next].dtype, p.flats[p.next]);
      Moves(p.(next := p.next + 1), PutIns(inst, p.slot, inst.slots[p.slot].ins[p.next := filled]))
  }

  function RunMove(p: Phase, inst: Instance, junk: seq<seq<real>>): Move {
    if !p.Filling? || p.next != |p.flats| || p.slot >= |inst.slots| then Blocked
    else match RunNet(inst.net, inst.slots[p.slot].ins)
      case Crashed => Moves(Leaving(p.slot, Err(RunFailed)), PutOuts(inst, p.slot, junk))
      case Wrote(outs) => Moves(Reading(p.slot, []), PutOuts(inst, p.slot, outs))
  }

  function ReadMove(id: string, p: Phase, inst: Instance): Move {
    if !p.Reading? || p.slot >= |inst.slots| then Blocked
    else if |p.got| < |inst.slots[p.slot].outs| then Moves(p.(got := p.got + [inst.slots[p.slot].outs[|p.got|]]), inst)
    else if inst.net.Valid() && Shaped(inst.net, p.got)
      then Moves(Leaving(p.slot, Ok(Prediction(id, Output(inst.net, id, p.got)))), inst)
    else Blocked
  }

  function ReturnMove(p: Phase, inst: Instance): Move {
    if !p.Leaving? then Blocked
    else if inst.closed then Panic
    else if |inst.pool| < |inst.slots| then Moves(Finished(p.result), inst.(pool := inst.pool + [p.slot]))
    else Blocked
  }

  function MoveOf(call: Call, inst: Instance, a: Step): Move
    requires IsMove(a)
  {
    match a
    case Checkout(_) => CheckoutMove(call.phase, inst)
    case GiveUp(_) =>
      if call.phase.Waiting? && call.ctxDone then Moves(Finished(Err(ContextDone)), inst) else Blocked
    case FillOne(_) => FillMove(call.phase, inst)
    case RunSession(_, junk) => RunMove(call.phase, inst, junk)
    case ReadOne(_) => ReadMove(call.id, call.phase, inst)
    case Return(_) => ReturnMove(call.phase, inst)
  }

  function PutIns(inst: Instance, k: nat, ins: seq<seq<real>>): Instance
    requires k < |inst.slots|
  {
    inst.(slots := inst.slots[k := inst.slots[k].(ins := ins)])
  }

  function PutOuts(inst: Instance, k: nat, outs: seq<seq<real>>): Instance
    requires k < |inst.slots|
  {
    inst.(slots := inst.slots[k := inst.slots[k].(outs := outs)])
  }

  predicate IsMove(a: Step) {
    a.Checkout? || a.GiveUp? || a.FillOne? || a.RunSession? || a.ReadOne? || a.Return?
  }

  function MoveNext(s: State, a: Step): Option<State>
    requires IsMove(a)
  {
    if a.c !in s.calls then None
    else
      var call := s.calls[a.c];
      if call.at.None? || call.at.value >= |s.insts| then None
      else match MoveOf(call, s.insts[call.at.value], a)
        case Blocked => None
        case Panic => Some(s.(fault := true))
        case Moves(p, inst) => Some(SetInst(SetPhase(s, a.c, p), call.at.value, inst))
  }

  function ClosePool(s: State, key: string): State
    requires key in s.models
  {
    if s.models[key] < |s.insts| then SetInst(s, s.models[key], s.insts[s.models[key]].(closed := true)) else s
  }

  /** The range loop over the closed channel of this model has come to its end. */
  predicate Drained(s: State, key: string) {
    key in s.models && s.models[key] < |s.insts| && Receive(s.insts[s.models[key]]).Nil?
  }

  // ---- Steps that need the registry lock or already have it ----

  function LoadBeginNext(s: State, id: string, version: string, net: Net, config: Config): Option<State> {
    match ModelKey(id, version)
    case Err(_) => None
    case Ok(key) =>
      if !s.lock.Free? || key in s.models || !net.Valid() then None
      else Some(s.(lock := Loading(Instance(key, net, [], [], false, []), SessionPoolSize(config))))
  }

  /** The new slot goes into the channel, which has room for n. */
  function CreateSlotNext(s: State, slot: Slot): Option<State> {
    if !s.lock.Loading? then None
    else
      var inst, n := s.lock.inst, s.lock.n;
      if |inst.slots| < n && |inst.pool| < n && |slot.ins| == |inst.net.inputs|
      then Some(s.(lock := Loading(inst.(slots := inst.slots + [slot], pool := inst.pool + [|inst.slots|]), n)))
      else None
  }

  /** for existing := range pool: it ends when a receive yields nil, and then the lock is released. */
  function CleanNext(s: State): Option<State> {
    if !s.lock.Cleaning? then None
    else match Receive(s.lock.inst)
      case Head(_, _) => Some(s.(lock := Cleaning(DestroyHead(s.lock.inst))))
      case Nil => Some(s.(lock := Free))
      case Waits => None
  }

  function LoadEndNext(s: State): Option<State> {
    if !s.lock.Loading? || |s.lock.inst.slots| != s.lock.n then None
    else Some(s.(models := s.models[s.lock.inst.key := |s.insts|], insts := s.insts + [s.lock.inst], lock := Free))
  }

  function UnloadBeginNext(s: State, id: string, version: string): Option<State> {
    match ModelKey(id, version)
    case Err(_) => None
    case Ok(key) =>
      if s.lock.Free? && key in s.models then Some(ClosePool(s, key).(lock := Unloading(key))) else None
  }

  function DrainNext(s: State): Option<State> {
    match Draining(s.lock)
    case None => None
    case Some(key) =>
      if key !in s.models || s.models[key] >= |s.insts| || !Receive(s.insts[s.models[key]]).Head? then None
      else Some(SetInst(s, s.models[key], DestroyHead(s.insts[s.models[key]])))
  }

  function ClosePickNext(s: State, key: string): Option<State> {
    if s.lock.Closing? && s.lock.current.None? && key in s.lock.left && key in s.models
    then Some(ClosePool(s, key).(lock := Closing(s.lock.left - {key}, Some(key)))) else None
  }

  function RegistryNext(s: State, a: Step): Option<State> {
    match a
    case LoadBegin(id, version, net, config) => LoadBeginNext(s, id, version, net, config)
    case CreateSlot(slot) => CreateSlotNext(s, slot)
    case CreateFails =>
      if s.lock.Loading? && |s.lock.inst.slots| < s.lock.n then Some(s.(lock := Cleaning(s.lock.inst))) else None
    case CleanOne => CleanNext(s)
    case LoadEnd => LoadEndNext(s)
    case UnloadBegin(id, version) => UnloadBeginNext(s, id, version)
    case Drain => DrainNext(s)
    case UnloadEnd =>
      if s.lock.Unloading? && Drained(s, s.lock.key)
      then Some(s.(models := s.models - {s.lock.key}, lock := Free)) else None
    case CloseBegin => if s.lock.Free? then Some(s.(lock := Closing(s.models.Keys, None))) else None
    case ClosePick(key) => ClosePickNext(s, key)
    case ClosePicked =>
      if s.lock.Closing? && s.lock.current.Some? && Drained(s, s.lock.current.value)
      then Some(s.(lock := Closing(s.lock.left, None))) else None
    case CloseEnd =>
      if s.lock == Closing({}, None) then Some(s.(models := map[], lock := Free)) else None
    case _ => None
  }

  /** One step of the engine: None when it is not enabled.  Nothing happens after a panic. */
  function Next(s: State, a: Step): Option<State> {
    if s.fault then None
    else if IsMove(a) then MoveNext(s, a)
    else match a
      case Begin(c, id, version, input) =>
        if c in s.calls then None
        else Some(s.(calls := s.calls[c := NewCall(id, version, input)]))
      case Lookup(c) =>
        if c in s.calls && s.calls[c].phase.Called? && s.lock.Free? then Some(LookupNext(s, c)) else None
      case CancelCtx(c) =>
        if c in s.calls then Some(s.(calls := s.calls[c := s.calls[c].(ctxDone := true)])) else None
      case _ => RegistryNext(s, a)
  }

  function Run(s: State, steps: seq<Step>): Option<State>
    decreases |steps|
  {
    if steps == [] then Some(s)
    else match Next(s, steps[0])
      case None => None
      case Some(s1) => Run(s1, steps[1..])
  }
}
