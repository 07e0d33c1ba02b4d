// get_registry: callers race to build the process-wide registry client, and
// all get the same one. A step runs one caller from one await to the next.
module RegistryInit {
  import opened Prelude

  type CallerId = nat
  type ClientId = nat

  // Where a caller is. Vault and Building are the awaits inside the lock.
  datatype Caller =
    | Arriving
    | Waiting
    | Vault
    | Building
    | Returned(client: ClientId)

  // enabled: the client got a pool.
  datatype Client = Client(id: ClientId, enabled: bool)

  datatype State = State(
    callers: map<CallerId, Caller>,
    registry: Option<Client>,
    owner: Option<CallerId>,
    poolsStarted: nat,      // calls of create_pool
    created: nat,           // clients constructed
    cancellations: nat)

  datatype Step =
    | Call(caller: CallerId)
    | Enter(caller: CallerId)
    | Acquire(caller: CallerId, vault: bool, env: bool)
    | GotVault(caller: CallerId, found: bool, env: bool)
    | Built(caller: CallerId, ok: bool)
    | Cancel(caller: CallerId)

  predicate Init(s: State) {
    s == State(map[], None, None, 0, 0, 0)
  }

  predicate Inside(c: Caller) {
    c.Vault? || c.Building?
  }

  function Moved(s: State, caller: CallerId, c: Caller): State {
    s.(callers := s.callers[caller := c])
  }

  // RegistryClient(pool) is stored and returned, and the lock is released.
  function Installed(s: State, caller: CallerId, enabled: bool): State {
    s.(callers := s.callers[caller := Returned(s.created)], registry := Some(Client(s.created, enabled)),
       owner := None, created := s.created + 1)
  }

  // The DSN is known: build the pool, or go without.
  function Resolved(s: State, caller: CallerId, dsn: bool): State {
    if dsn then Moved(s, caller, Building).(owner := Some(caller), poolsStarted := s.poolsStarted + 1)
    else Installed(s, caller, false)
  }

  function Next(s: State, step: Step): Option<State> {
    match step
    case Call(c) => if c in s.callers then None else Some(Moved(s, c, Arriving))
    case Enter(c) =>
      if c !in s.callers || !s.callers[c].Arriving? then None
      else if s.registry.Some? then Some(Moved(s, c, Returned(s.registry.value.id)))
      else Some(Moved(s, c, Waiting))   // the lock is made here, if it is the first call
    case Acquire(c, vault, env) =>
      if c !in s.callers || !s.callers[c].Waiting? || s.owner.Some? then None
      else if s.registry.Some? then Some(Moved(s, c, Returned(s.registry.value.id)))   // lost the race
      else if vault then Some(Moved(s, c, Vault).(owner := Some(c)))
      else Some(Resolved(s, c, env))
    case GotVault(c, found, env) =>
      if c !in s.callers || !s.callers[c].Vault? then None else Some(Resolved(s, c, found || env))
    case Built(c, ok) =>
      if c !in s.callers || !s.callers[c].Building? then None else Some(Installed(s, c, ok))
    case Cancel(c) =>
      if c !in s.callers || s.callers[c].Returned? then None
      else Some(s.(callers := s.callers - {c}, owner := if s.owner == Some(c) then None else s.owner,
                   cancellations := s.cancellations + 1))
  }

  ghost predicate Run(states: seq<State>, steps: seq<Step>) {
    && |states| == |steps| + 1
    && Init(states[0])
    && forall i | 0 <= i < |steps| :: Next(states[i], steps[i]) == Some(states[i + 1])
  }

  predicate Inv(s: State) {
    // whoever is inside owns the lock, and nobody is inside once the client is there
    && (forall c | c in s.callers && Inside(s.callers[c]) :: s.owner == Some(c) && s.registry.None?)
    && (s.owner.Some? ==> s.owner.value in s.callers && Inside(s.callers[s.owner.value]))
    && (forall c | c in s.callers && s.callers[c].Returned? ::
          s.registry.Some? && s.callers[c].client == s.registry.value.id)
    // a client is constructed once and a pool is started at most once, but for cancellations
    && s.created == (if s.registry.Some? then 1 else 0)
    && s.poolsStarted <= s.cancellations +
         if s.registry.Some? || (s.owner.Some? && s.callers[s.owner.value].Building?) then 1 else 0
  }

  lemma InvStep(s: State, step: Step, s': State)
    requires Inv(s) && Next(s, step) == Some(s')
    ensures Inv(s')
  {
  }

  lemma {:induction false} InvAlways(states: seq<State>, steps: seq<Step>, n: nat)
    requires Run(states, steps) && n < |states|
    ensures Inv(states[n])
  {
    if n > 0 {
      InvAlways(states, steps, n - 1);
      InvStep(states[n - 1], steps[n - 1], states[n]);
    }
  }

  // Any two callers that have returned got the same client ...
  lemma AllGetTheSameClient(states: seq<State>, steps: seq<Step>, n: nat, c: CallerId, d: CallerId)
    requires Run(states, steps) && n < |states|
    requires c in states[n].callers && d in states[n].callers
    requires states[n].callers[c].Returned? && states[n].callers[d].Returned?
    ensures states[n].callers[c] == states[n].callers[d]
    ensures states[n].registry.Some? && states[n].created == 1
  {
    InvAlways(states, steps, n);
  }

  // ... and the pool is built at most once, if no caller is cancelled; each
  // cancelled caller can cost one more attempt.
  lemma PoolIsBuiltOnce(states: seq<State>, steps: seq<Step>, n: nat)
    requires Run(states, steps) && n < |states|
    ensures states[n].poolsStarted <= 1 + states[n].cancellations
    ensures (forall i | 0 <= i < n :: !steps[i].Cancel?) ==> states[n].poolsStarted <= 1
  {
    InvAlways(states, steps, n);
    if forall i | 0 <= i < n :: !steps[i].Cancel? {
      NoneCancelled(states, steps, n);
    }
  }

  lemma {:induction false} NoneCancelled(states: seq<State>, steps: seq<Step>, n: nat)
    requires Run(states, steps) && n < |states| && forall i | 0 <= i < n :: !steps[i].Cancel?
    ensures states[n].cancellations == 0
  {
    if n > 0 {
      NoneCancelled(states, steps, n - 1);
    }
  }

  // Once there is a client it stays.
  lemma {:induction false} ClientStays(states: seq<State>, steps: seq<Step>, m: nat, n: nat)
    requires Run(states, steps) && m <= n < |states| && states[m].registry.Some?
    ensures states[n].registry == states[m].registry
  {
    if m < n {
      ClientStays(states, steps, m, n - 1);
      InvAlways(states, steps, n - 1);
    }
  }

  // ----- What the client is made of -----

  // The caller has the lock, and there is no client yet: with a DSN, from Vault or
  // else from the environment, it starts to build the pool; without one it
  // returns a client that is switched off.
  lemma DsnLeadsToAPool(states: seq<State>, steps: seq<Step>, n: nat)
    requires Run(states, steps) && n < |steps| && states[n].registry.None?
    ensures var s, u := states[n], states[n + 1];
            match steps[n]
            case Acquire(c, vault, env) =>
              if vault then u.callers[c] == Vault && u.registry.None? && u.poolsStarted == s.poolsStarted
              else if env then u.callers[c] == Building && u.registry.None? && u.poolsStarted == s.poolsStarted + 1
              else SwitchedOff(s, u, c)
            case GotVault(c, found, env) =>
              if found || env then u.callers[c] == Building && u.registry.None? && u.poolsStarted == s.poolsStarted + 1
              else SwitchedOff(s, u, c)
            case Built(c, ok) =>
              && u.registry.Some? && u.registry.value.enabled == ok && u.callers[c] == Returned(u.registry.value.id)
            case _ => u.registry.None? && u.poolsStarted == s.poolsStarted
  {
    assert Next(states[n], steps[n]) == Some(states[n + 1]);
  }

  predicate SwitchedOff(s: State, u: State, c: CallerId) {
    && u.registry.Some? && !u.registry.value.enabled && u.poolsStarted == s.poolsStarted
    && c in u.callers && u.callers[c] == Returned(u.registry.value.id)
  }

  // The step that made the client: the pool was built, or building it failed, or there was no DSN.
  predicate Makes(step: Step, enabled: bool) {
    || (step.Built? && step.ok == enabled)
    || (!enabled && step.Acquire? && !step.vault && !step.env)
    || (!enabled && step.GotVault? && !step.found && !step.env)
  }

  // The client everybody gets is enabled if and only if the pool was built: it was
  // made by one step, which finished building it, or gave up, or had no DSN.
  lemma {:induction false} ClientIsAsBuilt(states: seq<State>, steps: seq<Step>, n: nat)
    requires Run(states, steps) && n < |states| && states[n].registry.Some?
    ensures exists k | 0 <= k < n ::
              && states[k].registry.None? && states[k + 1].registry == states[n].registry
              && Makes(steps[k], states[n].registry.value.enabled)
  {
    if n > 0 {
      assert Next(states[n - 1], steps[n - 1]) == Some(states[n]);
      if states[n - 1].registry.Some? {
        InvAlways(states, steps, n - 1);
        ClientStays(states, steps, n - 1, n);
        ClientIsAsBuilt(states, steps, n - 1);
      } else {
        DsnLeadsToAPool(states, steps, n - 1);
      }
    }
  }
}
