/**
 The kernel running on one core, as a machine that takes one atomic step per
 event.  A task's position inside an API call is its `Pc`; interrupts arrive
 between any two steps.  Critical sections under PRIMASK are single steps;
 LDREX, STREX and the store to `owner` are separate steps, so an exception can
 fall between them.
 */
module Machine {
  import opened Basics
  import opened KernelSpec

  /** What follows the `_trigger_pendsv` that ends an API call. */
  datatype Cont = ToUser | ToRetry(m: nat) | ToGone

  datatype Pc =
    | User                              // in its own code
    | Trigger(k: Cont)                  // between _irq_restore and _trigger_pendsv
    | LoadEx(m: nat, blocking: bool)    // at the LDREX of vk_mutex_trylock
    | StoreEx(m: nat, blocking: bool)   // at the STREX, having read 0
    | SetOwner(m: nat, blocking: bool)  // STREX succeeded, owner not yet written
    | Recheck(m: nat)                   // vk_mutex_lock, at _irq_save
    | Gone                              // past the end of vk_task_exit

  /**
   `held[x]` collects the mutexes whose STREX task `x` has completed and which
   it has not unlocked since: a history variable.
   */
  datatype State = State(k: Kernel, pc: seq<Pc>, held: seq<set<nat>>, pendsv: bool, monitor: bool)

  datatype Api =
    | Yield | Sleep(n: KernelSpec.Tick) | Exit
    | Lock(m: nat) | TryLock(m: nat) | Unlock(m: nat)

  datatype Event =
    | Tick                 // SysTick exception
    | PendSV               // PendSV exception
    | Irq                  // any other exception
    | Start                // vk_start picks the first task
    | Create(p: Prio) | InitMutex
    | Call(a: Api)         // the running task calls the API from its own code
    | Go                   // the running task takes its next step inside an API call

  predicate PcInRange(p: Pc, n: nat) {
    match p
    case Trigger(ToRetry(m)) => m < n
    case LoadEx(m, _) => m < n
    case StoreEx(m, _) => m < n
    case SetOwner(m, _) => m < n
    case Recheck(m) => m < n
    case _ => true
  }

  ghost predicate Shaped(s: State) {
    && s.k.Shaped()
    && |s.pc| == |s.held| == s.k.N()
    && (forall x :: 0 <= x < |s.pc| ==> PcInRange(s.pc[x], s.k.M()))
  }

  /** The running task is about to execute an instruction of its own. */
  predicate Executing(s: State) {
    s.k.current.Some? && !s.pendsv
  }

  predicate InUserCode(s: State)
    requires Shaped(s)
  {
    Executing(s) && s.k.current.value != IDLE && s.pc[s.k.current.value] == User
  }

  /** Only the holder unlocks. */
  predicate Allowed(s: State, a: Api)
    requires Shaped(s) && s.k.current.Some?
  {
    match a
    case Yield => true
    case Sleep(_) => true
    case Exit => true
    case Lock(m) => m < s.k.M()
    case TryLock(m) => m < s.k.M()
    case Unlock(m) => m < s.k.M() && m in s.held[s.k.current.value]
  }

  /** Which events can happen; those of the API calls are in `Allowed`. */
  predicate Enabled(s: State, e: Event)
    requires Shaped(s)
  {
    match e
    case Tick => true
    case Irq => true
    case PendSV => s.pendsv
    case Start => s.k.current.None?
    case Create(_) => s.k.current.None? || InUserCode(s)
    case InitMutex => s.k.current.None? || InUserCode(s)
    case Call(a) => InUserCode(s) && Allowed(s, a)
    case Go => Executing(s) && s.pc[s.k.current.value] !in {User, Gone}
  }

  function After(k: Cont): Pc {
    match k
    case ToUser => User
    case ToRetry(m) => LoadEx(m, true)
    case ToGone => Gone
  }

  /** `s` with kernel data `k`, the running task now at `p`. */
  function At(s: State, k: Kernel, p: Pc): (r: State)
    requires Shaped(s) && s.k.current.Some?
    requires k.Shaped() && k.N() == s.k.N() && k.M() == s.k.M() && PcInRange(p, k.M())
    ensures Shaped(r)
  {
    s.(k := k, pc := s.pc[s.k.current.value := p])
  }

  /** One step of the running task inside an API call. */
  function GoStep(s: State): (r: State)
    requires Shaped(s) && Enabled(s, Go)
    ensures Shaped(r)
  {
    var c := s.k.current.value;
    match s.pc[c]
    case Trigger(k) => At(s, s.k, After(k)).(pendsv := true)
    case LoadEx(m, b) =>
      if s.k.locked[m] then At(s, s.k, if b then Recheck(m) else User).(monitor := false)
      else At(s, s.k, StoreEx(m, b)).(monitor := true)
    case StoreEx(m, b) =>
      if s.monitor
      then At(s, Locked(s.k, m, true), SetOwner(m, b)).(held := s.held[c := s.held[c] + {m}], monitor := false)
      else At(s, s.k, LoadEx(m, b))
    case SetOwner(m, _) => At(s, Owned(s.k, m, Some(c)), User)
    case Recheck(m) =>
      if s.k.locked[m] then At(s, Enqueue(s.k, m), Trigger(ToRetry(m)))
      else At(s, s.k, LoadEx(m, true))
    case User => s
    case Gone => s
  }

  /** The first step of an API call. */
  function CallStep(s: State, a: Api): (r: State)
    requires Shaped(s) && InUserCode(s) && Allowed(s, a)
    ensures Shaped(r)
  {
    match a
    case Yield => At(s, s.k, Trigger(ToUser))
    case Sleep(n) => At(s, KernelSpec.Sleep(s.k, n), Trigger(ToUser))
    case Exit => At(s, KernelSpec.Exit(s.k), Trigger(ToGone))
    case Lock(m) => At(s, s.k, LoadEx(m, true))
    case TryLock(m) => At(s, s.k, LoadEx(m, false))
    case Unlock(m) =>
      var c := s.k.current.value;
      At(s, KernelSpec.Unlock(s.k, m), Trigger(ToUser)).(held := s.held[c := s.held[c] - {m}])
  }

  function CreateTask(s: State, p: Prio): (r: State)
    requires Shaped(s)
    ensures Shaped(r)
  {
    if s.k.N() >= MAX_TASKS then s
    else s.(k := KernelSpec.Create(s.k, p), pc := s.pc + [User], held := s.held + [{}])
  }

  function AddMutex(s: State): (r: State)
    requires Shaped(s)
    ensures Shaped(r)
  {
    s.(k := KernelSpec.NewMutex(s.k))
  }

  function TickStep(s: State): (r: State)
    requires Shaped(s)
    ensures Shaped(r)
  {
    var k := SysTick(s.k);
    s.(k := k, pendsv := s.pendsv || Outranked(k), monitor := false)
  }

  function Next(s: State, e: Event): (r: State)
    requires Shaped(s) && Enabled(s, e)
    ensures Shaped(r)
  {
    match e
    case Tick => TickStep(s)
    case Irq => s.(monitor := false)
    case PendSV => s.(k := Schedule(s.k), pendsv := false, monitor := false)
    case Start => s.(k := PopReady(s.k))
    case Create(p) => CreateTask(s, p)
    case InitMutex => AddMutex(s)
    case Go => GoStep(s)
    case Call(a) => CallStep(s, a)
  }

  /** The state `vk_sched_init` leaves. */
  function Init(): (s: State)
    ensures Shaped(s)
  {
    hide Boot;
    State(Boot(), [User], [{}], false, false)
  }

  /** `es` can happen one after the other from `s`. */
  ghost predicate CanRun(s: State, es: seq<Event>)
    requires Shaped(s)
    decreases |es|
  {
    es == [] || (Enabled(s, es[0]) && CanRun(Next(s, es[0]), es[1..]))
  }

  ghost function Run(s: State, es: seq<Event>): (r: State)
    requires Shaped(s) && CanRun(s, es)
    ensures Shaped(r)
    decreases |es|
  {
    if es == [] then s else Run(Next(s, es[0]), es[1..])
  }

  /** `es` can happen from `s` and leads to `r`. */
  ghost predicate Leads(s: State, es: seq<Event>, r: State)
    requires Shaped(s)
  {
    CanRun(s, es) && Run(s, es) == r
  }

  lemma LeadsFirst(s: State, e: Event, es: seq<Event>, r: State)
    requires Shaped(s) && Enabled(s, e) && Leads(Next(s, e), es, r)
    ensures Leads(s, [e] + es, r)
  {
    assert ([e] + es)[1..] == es;
  }

  /** `r` follows `s` by event `e`. */
  ghost predicate Steps(s: State, e: Event, r: State) {
    Shaped(s) && Enabled(s, e) && r == Next(s, e)
  }

  /** `tr` lists the states of a run of the events `es`. */
  ghost predicate Trace(tr: seq<State>, es: seq<Event>) {
    |tr| == |es| + 1 && forall i {:trigger es[i]} :: 0 <= i < |es| ==> Steps(tr[i], es[i], tr[i + 1])
  }

  /** The states of all runs from power-up. */
  ghost predicate Reachable(s: State) {
    Shaped(s) && exists tr, es :: Trace(tr, es) && tr[0] == Init() && tr[|es|] == s
  }

  lemma InitReachable()
    ensures Reachable(Init())
  {
    hide Init;
    assert Trace([Init()], []);
  }

  /** Reachability is kept by every enabled event. */
  lemma NextReachable(s: State, e: Event)
    requires Reachable(s) && Enabled(s, e)
    ensures Reachable(Next(s, e))
  {
    hide Init, Next;
    var tr, es :| Trace(tr, es) && tr[0] == Init() && tr[|es|] == s;
    var tr', es' := tr + [Next(s, e)], es + [e];
    forall i | 0 <= i < |es'|
      ensures Steps(tr'[i], es'[i], tr'[i + 1])
    {
      assert i < |es| ==> Steps(tr[i], es[i], tr[i + 1]);
    }
    assert Trace(tr', es') && tr'[0] == Init() && tr'[|es'|] == Next(s, e);
  }

  /** And by every run. */
  lemma {:induction false} RunReachable(s: State, es: seq<Event>)
    requires Reachable(s) && CanRun(s, es)
    ensures Reachable(Run(s, es))
    decreases |es|
  {
    hide Next;
    if es != [] {
      NextReachable(s, es[0]);
      RunReachable(Next(s, es[0]), es[1..]);
    }
  }
}
