/** The desktop account session: sign-in exchanges, sign-out and recovery race on one
    keychain item, a generation counter, an authorization epoch, an exchange marker and one
    asynchronous lock. Every action below is one atomic section between two awaits. */
module Account {
  import opened Values

  datatype Session = Session(token: string, expiresAt: int)

  datatype Keychain = Empty | Corrupt | Stored(session: Session)

  /** The fields the tasks share. A pending authorization is known by its attempt number. */
  datatype Shared = Shared(pending: Option<nat>, epoch: nat, exchanging: nat, generation: nat, keychain: Keychain)

  function CancelledSignIn(s: Shared): Shared { s.(epoch := s.epoch + 1, pending := None) }

  function Begun(s: Shared, attempt: nat): Shared { s.(epoch := s.epoch + 1, pending := Some(attempt)) }

  function Advanced(s: Shared): Shared { s.(generation := s.generation + 1) }

  function Claimed(s: Shared): Shared { s.(exchanging := s.epoch, pending := None) }

  function GuardDropped(s: Shared, epoch: nat): Shared
  {
    if s.exchanging == epoch then s.(exchanging := 0) else s
  }

  function DroppedIfCurrent(s: Shared, expected: Session): Shared
  {
    if s.keychain == Stored(expected) then Advanced(s.(keychain := Empty)) else s
  }

  predicate ExchangeIsCurrent(s: Shared) { s.exchanging != 0 && s.exchanging == s.epoch }

  /** The atomic sections as they update the service's fields. */
  class AccountService {
    var pending: Option<nat>
    var epoch: nat
    var exchanging: nat
    var generation: nat
    var keychain: Keychain

    function State(): Shared
      reads this
    {
      Shared(pending, epoch, exchanging, generation, keychain)
    }

    constructor (keychain: Keychain)
      ensures State() == Shared(None, 0, 0, 0, keychain)
    {
      pending, epoch, exchanging, generation, this.keychain := None, 0, 0, 0, keychain;
    }

    method CancelSignIn()
      modifies this
      ensures State() == CancelledSignIn(old(State()))
    {
      epoch := epoch + 1;
      pending := None;
    }

    /** The end of beginning a sign-in, once the authorization is prepared. */
    method PublishPending(attempt: nat)
      modifies this
      ensures State() == Begun(old(State()), attempt)
    {
      epoch := epoch + 1;
      pending := Some(attempt);
    }

    method AdvanceGeneration()
      modifies this
      ensures State() == Advanced(old(State()))
    {
      generation := generation + 1;
    }

    /** Takes the pending authorization for a callback that carries its state. */
    method ClaimPending(attempt: nat) returns (claimed: Option<nat>)
      modifies this
      ensures claimed == if old(pending) == Some(attempt) then Some(old(epoch)) else None
      ensures State() == if old(pending) == Some(attempt) then Claimed(old(State())) else old(State())
    {
      if pending != Some(attempt) {
        return None;
      }
      exchanging := epoch;
      pending := None;
      return Some(epoch);
    }

    /** The guard of an exchange clears the marker only if it is still its own. */
    method DropGuard(owned: nat)
      modifies this
      ensures State() == GuardDropped(old(State()), owned)
    {
      if exchanging == owned {
        exchanging := 0;
      }
    }

    method IsExchanging() returns (current: bool)
      ensures current <==> ExchangeIsCurrent(State())
    {
      return exchanging != 0 && exchanging == epoch;
    }

    /** Under the lock: remove the session a rejected request used, if it is still stored. */
    method DeleteIfCurrent(expected: Session) returns (deleted: bool)
      modifies this
      ensures deleted <==> old(keychain) == Stored(expected)
      ensures State() == DroppedIfCurrent(old(State()), expected)
    {
      if keychain != Stored(expected) {
        return false;
      }
      keychain := Empty;
      AdvanceGeneration();
      return true;
    }
  }

  // ---------- tasks ----------

  /** What an exchange remembers: the generation and epoch it read, its attempt, and how many
      sign-outs and sign-in starts had happened when it read them. */
  datatype Claim = Claim(generation: nat, epoch: nat, attempt: nat, signOuts: nat, begins: nat)

  datatype Task =
    | Finished
    // starting a sign-in
    | BeginWaits
    | BeginHolds
    // handling a callback
    | LinkReads(generation: nat, signOuts: nat)
    | LinkExchanges(claim: Claim)
    | LinkHolds(claim: Claim)
    | LinkChecked(claim: Claim)
    | LinkSaved(claim: Claim)
    | LinkLeaves(claim: Claim)
    | LinkDone(claim: Claim)
    // signing out
    | OutWaits
    | OutHolds
    | OutCancelled
    | OutAdvanced
    // removing a rejected session
    | DropWaits(expected: Session)
    | DropHolds(expected: Session)
    | DropMatched(expected: Session)
    | DropDeleted
    // recovering from a corrupt item under the lock
    | RecoverReads(seen: nat)
    | RecoverWaits(seen: nat)
    | RecoverHolds(seen: nat)
    | RecoverConfirmed
    | RecoverDeleted
    // the same recovery without the lock
    | BareSeen(saves: nat)
    | BareDeleted

  predicate Holds(task: Task)
  {
    task.BeginHolds? || task.LinkHolds? || task.LinkChecked? || task.LinkSaved? || task.OutHolds? || task.OutCancelled?
    || task.OutAdvanced? || task.DropHolds? || task.DropMatched? || task.DropDeleted? || task.RecoverHolds?
    || task.RecoverConfirmed? || task.RecoverDeleted?
  }

  predicate HasClaim(task: Task)
  {
    task.LinkExchanges? || task.LinkHolds? || task.LinkChecked? || task.LinkSaved? || task.LinkLeaves? || task.LinkDone?
  }

  /** The exchange is running: its guard has not been dropped. */
  predicate Active(task: Task)
  {
    HasClaim(task) && !task.LinkDone?
  }

  /** Counters that only the proofs look at, and the exchange that saved last. */
  datatype History = History(signOuts: nat, begins: nat, saves: nat, saver: Option<Claim>)

  datatype World = World(shared: Shared, lock: Option<nat>, tasks: map<nat, Task>, history: History)

  datatype Action =
    | Cancel
    | Start(id: nat, task: Task)
    | StartLink(id: nat)
    | StartRecover(id: nat)
    | Acquire(id: nat)
    | Publish(id: nat, prepared: bool)
    | Take(id: nat, attempt: nat, denied: bool)
    | GiveUp(id: nat)
    | CheckExchange(id: nat, exchanged: bool)
    | SaveSession(id: nat, session: Session, saved: bool)
    | AdvanceAfterSave(id: nat)
    | LeaveExchange(id: nat)
    | OutCancel(id: nat)
    | OutAdvance(id: nat)
    | OutDelete(id: nat, deleted: bool)
    | DropLoad(id: nat)
    | DropDelete(id: nat, deleted: bool)
    | AdvanceAfterDelete(id: nat)
    | RecoverLoad(id: nat)
    | RecoverCheck(id: nat)
    | RecoverDelete(id: nat, deleted: bool)
    | BareLoad(id: nat)
    | BareDelete(id: nat, deleted: bool)

  /** The task moves on. */
  function Move(w: World, id: nat, task: Task): World { w.(tasks := w.tasks[id := task]) }

  /** The task moves on and lets the lock go. */
  function Release(w: World, id: nat, task: Task): World { Move(w, id, task).(lock := None) }

  function Grant(task: Task): Option<Task>
  {
    match task
    case BeginWaits => Some(BeginHolds)
    case LinkExchanges(claim) => Some(LinkHolds(claim))
    case OutWaits => Some(OutHolds)
    case DropWaits(expected) => Some(DropHolds(expected))
    case RecoverWaits(seen) => Some(RecoverHolds(seen))
    case _ => None
  }

  /** A new task begins. */
  function Enter(w: World, a: Action): World
  {
    match a
    case Start(id, task) =>
      if task.BeginWaits? || task.OutWaits? || task.DropWaits? then Move(w, id, task) else w
    case StartLink(id) => Move(w, id, LinkReads(w.shared.generation, w.history.signOuts))
    case StartRecover(id) => Move(w, id, RecoverReads(w.shared.generation))
    case BareLoad(id) => if w.shared.keychain.Corrupt? then Move(w, id, BareSeen(w.history.saves)) else w
    case _ => w
  }

  /** A sign-in callback claims the pending authorization; a denied one claims it too. */
  function Taking(w: World, a: Action, task: Task): World
  {
    var s := w.shared;
    match a
    case Take(id, attempt, denied) =>
      if !task.LinkReads? then w
      else if s.pending != Some(attempt) then Move(w, id, Finished)
      else
        var claim := Claim(task.generation, s.epoch, attempt, task.signOuts, w.history.begins);
        Move(w, id, if denied then LinkLeaves(claim) else LinkExchanges(claim)).(shared := Claimed(s))
    case _ => w
  }

  /** An exchange is given up, or leaves and drops its guard. */
  function Leaving(w: World, a: Action, task: Task): World
  {
    var s := w.shared;
    match a
    case GiveUp(id) => if task.LinkExchanges? then Move(w, id, LinkLeaves(task.claim)) else w
    case LeaveExchange(id) =>
      if task.LinkLeaves? then Move(w, id, LinkDone(task.claim)).(shared := GuardDropped(s, task.claim.epoch)) else w
    case _ => w
  }

  /** An exchange that got the lock goes on only if nothing overtook it. */
  function Checking(w: World, a: Action, task: Task): World
  {
    var s := w.shared;
    match a
    case CheckExchange(id, exchanged) =>
      if !task.LinkHolds? then w
      else if task.claim.generation != s.generation || task.claim.epoch != s.epoch || !exchanged
      then Release(w, id, LinkLeaves(task.claim))
      else Move(w, id, LinkChecked(task.claim))
    case _ => w
  }

  /** A checked exchange saves its session and advances the generation. */
  function Saving(w: World, a: Action, task: Task): World
  {
    var s := w.shared;
    match a
    case SaveSession(id, session, saved) =>
      if !task.LinkChecked? then w
      else if !saved then Release(w, id, LinkLeaves(task.claim))
      else
        Move(w, id, LinkSaved(task.claim)).(
          shared := s.(keychain := Stored(session)),
          history := w.history.(saves := w.history.saves + 1, saver := Some(task.claim)))
    case AdvanceAfterSave(id) =>
      if task.LinkSaved? then Release(w, id, LinkLeaves(task.claim)).(shared := Advanced(s)) else w
    case _ => w
  }

  /** Starting a sign-in and signing out, under the lock. */
  function Signing(w: World, a: Action, task: Task): World
  {
    var s := w.shared;
    match a
    case Publish(id, prepared) =>
      if !task.BeginHolds? then w
      else if !prepared then Release(w, id, Finished)
      else
        var attempt := w.history.begins + 1;
        Release(w, id, Finished).(shared := Begun(s, attempt), history := w.history.(begins := attempt))
    case OutCancel(id) =>
      if task.OutHolds? then Move(w, id, OutCancelled).(shared := CancelledSignIn(s)) else w
    case OutAdvance(id) =>
      if task.OutCancelled? then
        Move(w, id, OutAdvanced).(shared := Advanced(s), history := w.history.(signOuts := w.history.signOuts + 1))
      else w
    case OutDelete(id, deleted) =>
      if !task.OutAdvanced? then w
      else Release(w, id, Finished).(shared := if deleted then s.(keychain := Empty) else s)
    case _ => w
  }

  /** Removing a rejected session under the lock. */
  function Dropping(w: World, a: Action, task: Task): World
  {
    var s := w.shared;
    match a
    case DropLoad(id) =>
      if !task.DropHolds? then w
      else if s.keychain == Stored(task.expected) then Move(w, id, DropMatched(task.expected))
      else Release(w, id, Finished)
    case DropDelete(id, deleted) =>
      if !task.DropMatched? then w
      else if deleted then Move(w, id, DropDeleted).(shared := s.(keychain := Empty))
      else Release(w, id, Finished)
    case AdvanceAfterDelete(id) =>
      if task.DropDeleted? || task.RecoverDeleted? then Release(w, id, Finished).(shared := Advanced(s))
      else if task.BareDeleted? then Move(w, id, Finished).(shared := Advanced(s))
      else w
    case _ => w
  }

  /** Recovering from a corrupt item under the lock. */
  function Recovering(w: World, a: Action, task: Task): World
  {
    var s := w.shared;
    match a
    case RecoverLoad(id) =>
      if !task.RecoverReads? then w
      else Move(w, id, if s.keychain.Corrupt? then RecoverWaits(task.seen) else Finished)
    case RecoverCheck(id) =>
      if !task.RecoverHolds? then w
      else if task.seen == s.generation then Move(w, id, RecoverConfirmed)
      else Release(w, id, Finished)
    case RecoverDelete(id, deleted) =>
      if !task.RecoverConfirmed? then w
      else if deleted then Move(w, id, RecoverDeleted).(shared := s.(keychain := Empty))
      else Release(w, id, Finished)
    case _ => w
  }

  /** Recovering from a corrupt item without the lock. */
  function RecoveringBare(w: World, a: Action, task: Task): World
  {
    var s := w.shared;
    match a
    case BareDelete(id, deleted) =>
      if !task.BareSeen? then w
      else if deleted then Move(w, id, BareDeleted).(shared := s.(keychain := Empty))
      else Move(w, id, Finished)
    case _ => w
  }

  function Locking(w: World, id: nat, task: Task): World
  {
    if w.lock.None? && Grant(task).Some? then Move(w, id, Grant(task).value).(lock := Some(id)) else w
  }

  /** One atomic section. A section that is not enabled changes nothing. */
  function Act(w: World, a: Action): World
  {
    if a.Cancel? then w.(shared := CancelledSignIn(w.shared))
    else if a.id !in w.tasks then Enter(w, a)
    else
      var task := w.tasks[a.id];
      if a.Acquire? then Locking(w, a.id, task)
      else if a.Take? then Taking(w, a, task)
      else if a.GiveUp? || a.LeaveExchange? then Leaving(w, a, task)
      else if a.CheckExchange? then Checking(w, a, task)
      else if a.SaveSession? || a.AdvanceAfterSave? then Saving(w, a, task)
      else if a.Publish? || a.OutCancel? || a.OutAdvance? || a.OutDelete? then Signing(w, a, task)
      else if a.DropLoad? || a.DropDelete? || a.AdvanceAfterDelete? then Dropping(w, a, task)
      else if a.BareDelete? then RecoveringBare(w, a, task)
      else Recovering(w, a, task)
  }

  /** Any interleaving of the sections of any number of tasks. */
  function Run(w: World, actions: seq<Action>): World
    decreases |actions|
  {
    if actions == [] then w else Run(Act(w, actions[0]), actions[1..])
  }

  function Initial(keychain: Keychain): World
  {
    World(Shared(None, 0, 0, 0, keychain), None, map[], History(0, 0, 0, None))
  }

  // ---------- the invariant ----------

  /** What a claim says about the present. Equal counters mean nothing happened in between. */
  ghost predicate ClaimFits(w: World, c: Claim)
  {
    && 1 <= c.epoch <= w.shared.epoch
    && c.attempt <= w.history.begins
    && c.generation <= w.shared.generation && c.signOuts <= w.history.signOuts
    && (c.generation == w.shared.generation ==> c.signOuts == w.history.signOuts)
    && c.begins <= w.history.begins
    && (c.epoch == w.shared.epoch ==> c.begins == w.history.begins)
    && (w.shared.pending.Some? ==> c.epoch < w.shared.epoch && c.attempt != w.shared.pending.value)
  }

  /** What a task knows at its program point. */
  ghost predicate TaskFits(w: World, task: Task)
  {
    && (HasClaim(task) ==> ClaimFits(w, task.claim))
    && (Active(task) ==> w.shared.exchanging == task.claim.epoch || task.claim.epoch < w.shared.epoch)
    && (task.LinkChecked? ==> task.claim.signOuts == w.history.signOuts && task.claim.begins == w.history.begins)
    && (task.LinkReads? ==>
          && task.generation <= w.shared.generation && task.signOuts <= w.history.signOuts
          && (task.generation == w.shared.generation ==> task.signOuts == w.history.signOuts))
    && (task.DropMatched? ==> w.shared.keychain == Stored(task.expected) || w.shared.keychain.Empty?)
    && (task.RecoverReads? ==> task.seen <= w.shared.generation)
    && (task.RecoverWaits? || task.RecoverHolds? ==>
          && task.seen <= w.shared.generation
          && (w.shared.keychain.Stored? ==> w.history.saves > 0)
          && (w.history.saves > 0 ==> task.seen < w.shared.generation || SaveUnderWay(w)))
    && (task.RecoverConfirmed? ==> !w.shared.keychain.Stored?)
    && (task.BareSeen? ==>
          task.saves <= w.history.saves && (w.shared.keychain.Stored? ==> task.saves < w.history.saves))
  }

  ghost predicate SaveUnderWay(w: World)
  {
    w.lock.Some? && w.lock.value in w.tasks && w.tasks[w.lock.value].LinkSaved?
  }

  /** A task is inside a locked section exactly when it owns the lock, and knows what its
      program point says. */
  ghost predicate FitsAt(w: World, t: nat)
    requires t in w.tasks
  {
    (Holds(w.tasks[t]) <==> w.lock == Some(t)) && TaskFits(w, w.tasks[t])
  }

  /** No two exchanges share an epoch or an authorization. */
  ghost predicate Distinct(w: World, t: nat, u: nat)
    requires t in w.tasks && u in w.tasks
  {
    t != u && HasClaim(w.tasks[t]) && HasClaim(w.tasks[u]) ==>
      w.tasks[t].claim.epoch != w.tasks[u].claim.epoch && w.tasks[t].claim.attempt != w.tasks[u].claim.attempt
  }

  ghost predicate Owns(w: World, t: nat)
  {
    t in w.tasks && Active(w.tasks[t]) && w.tasks[t].claim.epoch == w.shared.exchanging
  }

  ghost predicate MarkerIsOwned(w: World)
  {
    w.shared.exchanging != 0 ==> exists t :: Owns(w, t)
  }

  ghost predicate Ground(w: World)
  {
    && (w.lock.Some? ==> w.lock.value in w.tasks)
    && (w.shared.pending.Some? ==> w.shared.epoch >= 1 && w.shared.pending.value <= w.history.begins)
    && (w.shared.keychain.Corrupt? ==> w.history.saves == 0)
  }

  ghost predicate Inv(w: World)
  {
    && Ground(w)
    && (forall t {:trigger FitsAt(w, t)} :: t in w.tasks ==> FitsAt(w, t))
    && (forall t, u {:trigger Distinct(w, t, u)} :: t in w.tasks && u in w.tasks ==> Distinct(w, t, u))
    && MarkerIsOwned(w)
  }

  /** All a section needs to know to keep task t fitting: t itself and the acting task. */
  ghost predicate Known(w: World, id: nat, t: nat)
  {
    && Ground(w)
    && (t in w.tasks ==> FitsAt(w, t))
    && (id in w.tasks ==> FitsAt(w, id))
    && (t in w.tasks && id in w.tasks ==> Distinct(w, t, id))
  }

  lemma EnterFits(w: World, a: Action, t: nat)
    requires !a.Cancel? && a.id !in w.tasks && Known(w, a.id, t)
    ensures Ground(Enter(w, a))
    ensures t in Enter(w, a).tasks ==> FitsAt(Enter(w, a), t)
  {
  }

  lemma LockingFits(w: World, id: nat, t: nat)
    requires id in w.tasks && Known(w, id, t)
    ensures Ground(Locking(w, id, w.tasks[id]))
    ensures t in w.tasks ==> FitsAt(Locking(w, id, w.tasks[id]), t)
  {
  }

  lemma TakingFitsOwn(w: World, a: Action)
    requires !a.Cancel? && a.id in w.tasks && Known(w, a.id, a.id)
    ensures Ground(Taking(w, a, w.tasks[a.id]))
    ensures FitsAt(Taking(w, a, w.tasks[a.id]), a.id)
  {
  }

  lemma TakingFits(w: World, a: Action, t: nat)
    requires !a.Cancel? && a.id in w.tasks && Known(w, a.id, t)
    ensures Ground(Taking(w, a, w.tasks[a.id]))
    ensures t in w.tasks ==> FitsAt(Taking(w, a, w.tasks[a.id]), t)
  {
    TakingFitsOwn(w, a);
  }

  lemma LeavingFitsOwn(w: World, a: Action)
    requires !a.Cancel? && a.id in w.tasks && Known(w, a.id, a.id)
    ensures Ground(Leaving(w, a, w.tasks[a.id]))
    ensures FitsAt(Leaving(w, a, w.tasks[a.id]), a.id)
  {
  }

  lemma LeavingFits(w: World, a: Action, t: nat)
    requires !a.Cancel? && a.id in w.tasks && Known(w, a.id, t)
    ensures Ground(Leaving(w, a, w.tasks[a.id]))
    ensures t in w.tasks ==> FitsAt(Leaving(w, a, w.tasks[a.id]), t)
  {
    LeavingFitsOwn(w, a);
  }

  lemma CheckingFits(w: World, a: Action, t: nat)
    requires !a.Cancel? && a.id in w.tasks && Known(w, a.id, t)
    ensures Ground(Checking(w, a, w.tasks[a.id]))
    ensures t in w.tasks ==> FitsAt(Checking(w, a, w.tasks[a.id]), t)
  {
  }

  lemma SavingFitsOwn(w: World, a: Action)
    requires !a.Cancel? && a.id in w.tasks && Known(w, a.id, a.id)
    ensures Ground(Saving(w, a, w.tasks[a.id]))
    ensures FitsAt(Saving(w, a, w.tasks[a.id]), a.id)
  {
  }

  lemma SavingFits(w: World, a: Action, t: nat)
    requires !a.Cancel? && a.id in w.tasks && Known(w, a.id, t)
    ensures Ground(Saving(w, a, w.tasks[a.id]))
    ensures t in w.tasks ==> FitsAt(Saving(w, a, w.tasks[a.id]), t)
  {
    SavingFitsOwn(w, a);
  }

  lemma SigningFitsOwn(w: World, a: Action)
    requires !a.Cancel? && a.id in w.tasks && Known(w, a.id, a.id)
    ensures Ground(Signing(w, a, w.tasks[a.id]))
    ensures FitsAt(Signing(w, a, w.tasks[a.id]), a.id)
  {
  }

  lemma SigningFitsOther(w: World, a: Action, t: nat)
    requires !a.Cancel? && a.id in w.tasks && t in w.tasks && t != a.id && Known(w, a.id, t)
    ensures FitsAt(Signing(w, a, w.tasks[a.id]), t)
  {
  }

  lemma SigningFits(w: World, a: Action, t: nat)
    requires !a.Cancel? && a.id in w.tasks && Known(w, a.id, t)
    ensures Ground(Signing(w, a, w.tasks[a.id]))
    ensures t in w.tasks ==> FitsAt(Signing(w, a, w.tasks[a.id]), t)
  {
    SigningFitsOwn(w, a);
    if t in w.tasks && t != a.id {
      SigningFitsOther(w, a, t);
    }
  }

  lemma DroppingFitsOwn(w: World, a: Action)
    requires !a.Cancel? && a.id in w.tasks && Known(w, a.id, a.id)
    ensures Ground(Dropping(w, a, w.tasks[a.id]))
    ensures FitsAt(Dropping(w, a, w.tasks[a.id]), a.id)
  {
  }

  lemma DroppingFitsOther(w: World, a: Action, t: nat)
    requires !a.Cancel? && a.id in w.tasks && t in w.tasks && t != a.id && Known(w, a.id, t)
    ensures Ground(Dropping(w, a, w.tasks[a.id]))
    ensures FitsAt(Dropping(w, a, w.tasks[a.id]), t)
  {
  }

  lemma DroppingFits(w: World, a: Action, t: nat)
    requires !a.Cancel? && a.id in w.tasks && Known(w, a.id, t)
    ensures Ground(Dropping(w, a, w.tasks[a.id]))
    ensures t in w.tasks ==> FitsAt(Dropping(w, a, w.tasks[a.id]), t)
  {
    if t in w.tasks && t != a.id {
      DroppingFitsOther(w, a, t);
    } else {
      DroppingFitsOwn(w, a);
    }
  }

  lemma RecoveringFitsOwn(w: World, a: Action)
    requires !a.Cancel? && a.id in w.tasks && Known(w, a.id, a.id)
    ensures Ground(Recovering(w, a, w.tasks[a.id]))
    ensures FitsAt(Recovering(w, a, w.tasks[a.id]), a.id)
  {
  }

  lemma RecoveringFitsOther(w: World, a: Action, t: nat)
    requires !a.Cancel? && a.id in w.tasks && t in w.tasks && t != a.id && Known(w, a.id, t)
    ensures Ground(Recovering(w, a, w.tasks[a.id]))
    ensures FitsAt(Recovering(w, a, w.tasks[a.id]), t)
  {
  }

  lemma RecoveringFits(w: World, a: Action, t: nat)
    requires !a.Cancel? && a.id in w.tasks && Known(w, a.id, t)
    ensures Ground(Recovering(w, a, w.tasks[a.id]))
    ensures t in w.tasks ==> FitsAt(Recovering(w, a, w.tasks[a.id]), t)
  {
    if t in w.tasks && t != a.id {
      RecoveringFitsOther(w, a, t);
    } else {
      RecoveringFitsOwn(w, a);
    }
  }

  lemma RecoveringBareFits(w: World, a: Action, t: nat)
    requires !a.Cancel? && a.id in w.tasks && Known(w, a.id, t)
    ensures Ground(RecoveringBare(w, a, w.tasks[a.id]))
    ensures t in w.tasks ==> FitsAt(RecoveringBare(w, a, w.tasks[a.id]), t)
  {
  }

  lemma ActFits(w: World, a: Action, t: nat)
    requires Inv(w)
    ensures Ground(Act(w, a))
    ensures t in Act(w, a).tasks ==> t in w.tasks || (!a.Cancel? && t == a.id)
    ensures t in Act(w, a).tasks ==> FitsAt(Act(w, a), t)
  {
    assert t in w.tasks ==> FitsAt(w, t);
    if !a.Cancel? {
      assert a.id in w.tasks ==> FitsAt(w, a.id);
      assert t in w.tasks && a.id in w.tasks ==> Distinct(w, t, a.id);
      if a.id !in w.tasks {
        EnterFits(w, a, t);
      } else {
        ActingFits(w, a, t);
      }
    }
  }

  lemma ActingFits(w: World, a: Action, t: nat)
    requires !a.Cancel? && a.id in w.tasks && Known(w, a.id, t)
    ensures Ground(Act(w, a))
    ensures t in w.tasks ==> FitsAt(Act(w, a), t)
  {
    if a.Acquire? {
      LockingFits(w, a.id, t);
    } else if a.Take? {
      TakingFits(w, a, t);
    } else if a.GiveUp? || a.LeaveExchange? {
      LeavingFits(w, a, t);
    } else if a.CheckExchange? {
      CheckingFits(w, a, t);
    } else if a.SaveSession? || a.AdvanceAfterSave? {
      SavingFits(w, a, t);
    } else if a.Publish? || a.OutCancel? || a.OutAdvance? || a.OutDelete? {
      SigningFits(w, a, t);
    } else if a.DropLoad? || a.DropDelete? || a.AdvanceAfterDelete? {
      DroppingFits(w, a, t);
    } else if a.BareDelete? {
      RecoveringBareFits(w, a, t);
    } else {
      RecoveringFits(w, a, t);
    }
  }

  /** Only claiming makes a claim, and it takes the epoch and attempt that are current. */
  lemma ActClaims(w: World, a: Action, t: nat)
    requires t in Act(w, a).tasks && HasClaim(Act(w, a).tasks[t])
    ensures || (t in w.tasks && HasClaim(w.tasks[t]) && Act(w, a).tasks[t].claim == w.tasks[t].claim)
            || (a.Take? && a.id == t && Act(w, a).tasks[t].claim.epoch == w.shared.epoch
                && w.shared.pending == Some(Act(w, a).tasks[t].claim.attempt))
  {
  }

  lemma ActKeepsDistinct(w: World, a: Action, t: nat, u: nat)
    requires Inv(w)
    requires t in Act(w, a).tasks && u in Act(w, a).tasks
    ensures Distinct(Act(w, a), t, u)
  {
    var later := Act(w, a);
    if t != u && HasClaim(later.tasks[t]) && HasClaim(later.tasks[u]) {
      ActClaims(w, a, t);
      ActClaims(w, a, u);
      assert t in w.tasks ==> FitsAt(w, t);
      assert u in w.tasks ==> FitsAt(w, u);
      assert t in w.tasks && u in w.tasks ==> Distinct(w, t, u);
    }
  }

  /** The marker stays with its owner, passes to a new claim, or is cleared by its owner. */
  lemma ActKeepsMarker(w: World, a: Action)
    requires Inv(w)
    ensures MarkerIsOwned(Act(w, a))
  {
    var later := Act(w, a);
    if w.shared.exchanging != 0 {
      var t :| Owns(w, t);
      assert a.LeaveExchange? && a.id in w.tasks ==> Distinct(w, t, a.id);
      assert later.shared.exchanging == w.shared.exchanging ==> Owns(later, t);
    }
    if a.Take? && later.shared.exchanging != w.shared.exchanging {
      assert Owns(later, a.id);
    }
  }

  lemma ActKeepsInv(w: World, a: Action)
    requires Inv(w)
    ensures Inv(Act(w, a))
  {
    var later := Act(w, a);
    ActFits(w, a, 0);
    forall t | t in later.tasks
      ensures FitsAt(later, t)
    {
      ActFits(w, a, t);
    }
    forall t, u | t in later.tasks && u in later.tasks
      ensures Distinct(later, t, u)
    {
      ActKeepsDistinct(w, a, t, u);
    }
    ActKeepsMarker(w, a);
  }

  lemma {:induction false} RunKeepsInv(w: World, actions: seq<Action>)
    requires Inv(w)
    ensures Inv(Run(w, actions))
    decreases |actions|
  {
    if actions != [] {
      ActKeepsInv(w, actions[0]);
      RunKeepsInv(Act(w, actions[0]), actions[1..]);
    }
  }

  lemma InitialIsFine(keychain: Keychain)
    ensures Inv(Initial(keychain))
  {
  }

  // ---------- what every interleaving guarantees ----------

  /** The action stores the session of its exchange. */
  predicate Saves(w: World, a: Action)
  {
    a.SaveSession? && a.saved && a.id in w.tasks && w.tasks[a.id].LinkChecked?
  }

  /** An exchange that stores its session was overtaken by nothing: no sign-out and no new
      sign-in start ran since it read the generation and the epoch. */
  lemma SavingIsNotOvertaken(w: World, a: Action)
    requires Inv(w) && Saves(w, a)
    ensures var claim := w.tasks[a.id].claim;
            && claim.signOuts == w.history.signOuts && claim.begins == w.history.begins
            && Act(w, a).shared.keychain == Stored(a.session) && Act(w, a).history.saver == Some(claim)
  {
    assert FitsAt(w, a.id);
  }

  /** The exchange read the generation before the last sign-out, or the epoch before the last
      sign-in start. */
  predicate Overtaken(w: World, t: nat)
  {
    t in w.tasks && !w.tasks[t].LinkSaved? &&
    (|| (w.tasks[t].LinkReads? && w.tasks[t].signOuts < w.history.signOuts)
     || (HasClaim(w.tasks[t]) && (w.tasks[t].claim.signOuts < w.history.signOuts || w.tasks[t].claim.begins < w.history.begins))
     || w.tasks[t].Finished?)
  }

  /** Once overtaken, an exchange never stores a session, in any continuation. */
  lemma {:induction false} OvertakenNeverSaves(w: World, actions: seq<Action>, t: nat, i: nat)
    requires Inv(w) && Overtaken(w, t) && i < |actions|
    ensures Overtaken(Run(w, actions), t)
    ensures Saves(Run(w, actions[..i]), actions[i]) ==> actions[i].id != t
    decreases |actions|
  {
    assert FitsAt(w, t);
    var next := Act(w, actions[0]);
    ActKeepsInv(w, actions[0]);
    OvertakenStays(w, actions[0], t);
    if i == 0 {
      assert actions[..0] == [];
      if |actions| > 1 {
        OvertakenNeverSaves(next, actions[1..], t, 0);
      }
    } else {
      OvertakenNeverSaves(next, actions[1..], t, i - 1);
      assert actions[..i][1..] == actions[1..][..i - 1];
    }
  }

  lemma OvertakenStays(w: World, a: Action, t: nat)
    requires Inv(w) && Overtaken(w, t)
    ensures Overtaken(Act(w, a), t)
    ensures Saves(w, a) ==> a.id != t
  {
    assert FitsAt(w, t);
    if a.Cancel? || a.id != t {
      OthersStay(w, a, t);
    } else {
      OvertakenMoves(w, a);
    }
  }

  /** An action of another task leaves t alone, and the counters only grow. */
  lemma OthersStay(w: World, a: Action, t: nat)
    requires t in w.tasks && (a.Cancel? || a.id != t)
    ensures t in Act(w, a).tasks && Act(w, a).tasks[t] == w.tasks[t]
    ensures Act(w, a).history.signOuts >= w.history.signOuts && Act(w, a).history.begins >= w.history.begins
  {
  }

  lemma OvertakenMoves(w: World, a: Action)
    requires !a.Cancel? && Overtaken(w, a.id) && FitsAt(w, a.id)
    ensures Overtaken(Act(w, a), a.id) && !Saves(w, a)
  {
    if w.tasks[a.id].Finished? {
      assert Act(w, a) == w;
    }
  }

  /** After a sign-out has emptied the keychain, a session found there was stored by an
      exchange that read the generation after that sign-out. */
  lemma {:induction false} SignedOutStaysOut(w: World, actions: seq<Action>, signOuts: nat)
    requires Inv(w) && signOuts <= w.history.signOuts
    requires w.shared.keychain.Stored? ==> w.history.saver.Some? && w.history.saver.value.signOuts >= signOuts
    ensures var later := Run(w, actions);
            later.shared.keychain.Stored? ==> later.history.saver.Some? && later.history.saver.value.signOuts >= signOuts
    decreases |actions|
  {
    if actions != [] {
      var a := actions[0];
      ActKeepsInv(w, a);
      if Saves(w, a) {
        SavingIsNotOvertaken(w, a);
      }
      SessionsComeFromSaves(w, a);
      SignedOutStaysOut(Act(w, a), actions[1..], signOuts);
    }
  }

  lemma SessionsComeFromSaves(w: World, a: Action)
    ensures !Saves(w, a) && Act(w, a).shared.keychain.Stored? ==> Act(w, a).shared.keychain == w.shared.keychain
    ensures !Saves(w, a) ==> Act(w, a).history.saver == w.history.saver
    ensures Act(w, a).history.signOuts >= w.history.signOuts
  {
  }

  /** `signing in` is shown for exactly the exchanges that own the current epoch. */
  lemma MarkerMeansCurrentExchange(w: World)
    requires Inv(w)
    ensures ExchangeIsCurrent(w.shared) <==>
            exists t :: t in w.tasks && Active(w.tasks[t]) && w.tasks[t].claim.epoch == w.shared.epoch
  {
    if ExchangeIsCurrent(w.shared) {
      var t :| Owns(w, t);
    }
    forall t | t in w.tasks && Active(w.tasks[t]) && w.tasks[t].claim.epoch == w.shared.epoch
      ensures ExchangeIsCurrent(w.shared)
    {
      assert FitsAt(w, t);
    }
  }

  /** No authorization is exchanged twice. */
  lemma AuthorizationsAreExchangedOnce(w: World, t: nat, u: nat)
    requires Inv(w)
    requires t in w.tasks && u in w.tasks && HasClaim(w.tasks[t]) && HasClaim(w.tasks[u])
    requires w.tasks[t].claim.attempt == w.tasks[u].claim.attempt
    ensures t == u
  {
    assert Distinct(w, t, u);
  }

  /** An exchange that leaves clears its own marker and no other. */
  lemma LeavingKeepsOtherMarkers(w: World, a: Action, t: nat)
    requires Inv(w)
    requires a.LeaveExchange? && a.id in w.tasks && w.tasks[a.id].LinkLeaves?
    requires t in w.tasks && t != a.id && Active(w.tasks[t])
    ensures w.shared.exchanging == w.tasks[t].claim.epoch ==> Act(w, a).shared.exchanging == w.tasks[t].claim.epoch
    ensures Act(w, a).shared.exchanging != w.tasks[a.id].claim.epoch
  {
    assert Distinct(w, t, a.id);
    assert FitsAt(w, a.id);
  }

  /** Run without interruption, the sections of a removal do what the method does. */
  lemma DropSectionsAreOneRemoval(w: World, id: nat)
    requires w.lock.None? && id in w.tasks && w.tasks[id].DropWaits?
    ensures Run(w, DropSections(id)).shared == DroppedIfCurrent(w.shared, w.tasks[id].expected)
  {
    var w1 := Act(w, Acquire(id));
    var w2 := Act(w1, DropLoad(id));
    var w3 := Act(w2, DropDelete(id, true));
    RunDropSections(w, id);
    assert w1.shared == w.shared && w1.tasks[id] == DropHolds(w.tasks[id].expected);
    if w.shared.keychain == Stored(w.tasks[id].expected) {
      assert w3.tasks[id] == DropDeleted;
    } else {
      assert w2.tasks[id] == Finished && w3 == w2;
    }
  }

  function DropSections(id: nat): seq<Action>
  {
    [Acquire(id)] + ([DropLoad(id)] + ([DropDelete(id, true)] + ([AdvanceAfterDelete(id)] + [])))
  }

  lemma RunDropSections(w: World, id: nat)
    ensures Run(w, DropSections(id)) ==
            Act(Act(Act(Act(w, Acquire(id)), DropLoad(id)), DropDelete(id, true)), AdvanceAfterDelete(id))
  {
    var w1 := Act(w, Acquire(id));
    var w2 := Act(w1, DropLoad(id));
    var w3 := Act(w2, DropDelete(id, true));
    RunOne(w, Acquire(id), [DropLoad(id)] + ([DropDelete(id, true)] + ([AdvanceAfterDelete(id)] + [])));
    RunOne(w1, DropLoad(id), [DropDelete(id, true)] + ([AdvanceAfterDelete(id)] + []));
    RunOne(w2, DropDelete(id, true), [AdvanceAfterDelete(id)] + []);
    RunOne(w3, AdvanceAfterDelete(id), []);
  }

  lemma RunOne(w: World, a: Action, rest: seq<Action>)
    ensures Run(w, [a] + rest) == Run(Act(w, a), rest)
  {
    assert ([a] + rest)[1..] == rest;
  }

  /** Who may remove a stored session: a sign-out, a rejected request that used that very
      session, or the recovery that runs without the lock. */
  lemma DeletionsAreAccounted(w: World, a: Action, session: Session)
    requires Inv(w)
    requires w.shared.keychain == Stored(session) && Act(w, a).shared.keychain != w.shared.keychain
    ensures || (a.OutDelete? && Act(w, a).shared.keychain.Empty?)
            || (a.DropDelete? && w.tasks[a.id] == DropMatched(session))
            || (a.BareDelete? && w.tasks[a.id].BareSeen?)
            || Saves(w, a)
  {
    if !a.Cancel? && a.id in w.tasks {
      assert FitsAt(w, a.id);
    }
  }

  // ---------- what a cancellation and the bare recovery can and cannot do ----------

  /** The i-th action of a run stores the session of exchange t. */
  predicate SavesAt(w: World, actions: seq<Action>, i: nat, t: nat)
  {
    i < |actions| && Saves(Run(w, actions[..i]), actions[i]) && actions[i].id == t
  }

  /** Exchange t stores its session in some continuation. */
  ghost predicate MaySave(w: World, t: nat)
  {
    exists actions, i :: SavesAt(w, actions, i, t)
  }

  /** The exchange is past its save, or its epoch is over before its check. */
  predicate Stopped(w: World, t: nat)
  {
    && t in w.tasks
    && (|| w.tasks[t].Finished? || w.tasks[t].LinkSaved? || w.tasks[t].LinkLeaves? || w.tasks[t].LinkDone?
        || ((w.tasks[t].LinkExchanges? || w.tasks[t].LinkHolds?) && w.tasks[t].claim.epoch < w.shared.epoch))
  }

  lemma StoppedMoves(w: World, a: Action)
    requires !a.Cancel? && Stopped(w, a.id)
    ensures Stopped(Act(w, a), a.id) && !Saves(w, a)
  {
  }

  lemma EpochsGrow(w: World, a: Action)
    ensures Act(w, a).shared.epoch >= w.shared.epoch
  {
  }

  lemma StoppedStays(w: World, a: Action, t: nat)
    requires Stopped(w, t)
    ensures Stopped(Act(w, a), t)
    ensures Saves(w, a) ==> a.id != t
  {
    if a.Cancel? || a.id != t {
      OthersStay(w, a, t);
      EpochsGrow(w, a);
    } else {
      StoppedMoves(w, a);
    }
  }

  /** A stopped exchange stores nothing in any continuation. */
  lemma {:induction false} StoppedNeverSaves(w: World, actions: seq<Action>, i: nat, t: nat)
    requires Stopped(w, t)
    ensures !SavesAt(w, actions, i, t)
    decreases |actions|
  {
    if i < |actions| {
      StoppedStays(w, actions[0], t);
      if i == 0 {
        assert actions[..0] == [];
      } else {
        StoppedNeverSaves(Act(w, actions[0]), actions[1..], i - 1, t);
        assert actions[..i][1..] == actions[1..][..i - 1];
      }
    }
  }

  /** After a cancellation an exchange can still store its session exactly when it had already
      passed its check under the lock. */
  lemma CancelStopsExactlyTheUnchecked(w: World, t: nat)
    requires Inv(w) && t in w.tasks && HasClaim(w.tasks[t])
    ensures MaySave(Act(w, Cancel), t) <==> w.tasks[t].LinkChecked?
  {
    var cancelled := Act(w, Cancel);
    assert FitsAt(w, t);
    if w.tasks[t].LinkChecked? {
      var actions := [SaveSession(t, Session("", 0), true)];
      assert Run(cancelled, actions[..0]) == cancelled;
      assert SavesAt(cancelled, actions, 0, t);
    } else {
      forall actions, i
        ensures !SavesAt(cancelled, actions, i, t)
      {
        StoppedNeverSaves(cancelled, actions, i, t);
      }
    }
  }

  /** The recovery without the lock removes a session exactly when one is stored at that
      moment, and then some exchange saved after the recovery looked. */
  lemma BareRecoveryRemovesExactlyStored(w: World, id: nat, deleted: bool)
    requires Inv(w) && id in w.tasks && w.tasks[id].BareSeen?
    ensures var later := Act(w, BareDelete(id, deleted)).shared.keychain;
            w.shared.keychain.Stored? && later != w.shared.keychain <==> deleted && w.shared.keychain.Stored?
    ensures w.shared.keychain.Stored? ==> w.tasks[id].saves < w.history.saves
  {
    assert FitsAt(w, id);
  }

  /** A save of this session since the start of the run, and nothing removed it since. */
  ghost predicate SavedSince(w: World, actions: seq<Action>, i: nat, session: Session)
  {
    && i < |actions|
    && Saves(Run(w, actions[..i]), actions[i]) && actions[i].session == session
    && forall j :: i < j <= |actions| ==> Run(w, actions[..j]).shared.keychain == Stored(session)
  }

  /** From a corrupt item on, a session is stored exactly when an exchange saved it and nothing
      has removed or replaced it: the condition under which a bare recovery that looked at the
      corrupt item takes a session away. */
  lemma {:induction false} StoredMeansSavedSince(w: World, actions: seq<Action>, session: Session)
    requires !w.shared.keychain.Stored?
    ensures Run(w, actions).shared.keychain == Stored(session) <==> exists i :: SavedSince(w, actions, i, session)
    decreases |actions|
  {
    assert actions[..|actions|] == actions;
    if Run(w, actions).shared.keychain == Stored(session) && actions != [] {
      var n := |actions| - 1;
      var front := actions[..n];
      var before := Run(w, front);
      assert actions == front + [actions[n]];
      RunAppend(w, front, [actions[n]]);
      assert Run(before, [actions[n]]) == Run(Act(before, actions[n]), []);
      if Saves(before, actions[n]) {
        assert SavedSince(w, actions, n, session);
      } else {
        SessionsComeFromSaves(before, actions[n]);
        StoredMeansSavedSince(w, front, session);
        var i :| SavedSince(w, front, i, session);
        SavedSinceLonger(w, actions, i, session);
      }
    }
  }

  lemma SavedSinceLonger(w: World, actions: seq<Action>, i: nat, session: Session)
    requires actions != [] && SavedSince(w, actions[..|actions| - 1], i, session)
    requires Run(w, actions).shared.keychain == Stored(session)
    ensures SavedSince(w, actions, i, session)
  {
    var front := actions[..|actions| - 1];
    assert front[..i] == actions[..i] && actions[..|actions|] == actions;
    forall j | i < j <= |actions|
      ensures Run(w, actions[..j]).shared.keychain == Stored(session)
    {
      if j <= |front| {
        assert front[..j] == actions[..j];
      }
    }
  }

  /** The recovery that saw a corrupt item, from its look to its deletion. */
  lemma BareRecoveryRemovesExactlyNewSessions(w: World, id: nat, actions: seq<Action>, session: Session)
    requires Inv(w) && w.shared.keychain.Corrupt? && id !in w.tasks
    requires var later := Run(Act(w, BareLoad(id)), actions);
             id in later.tasks && later.tasks[id].BareSeen?
    ensures var seen := Act(w, BareLoad(id));
            var later := Run(seen, actions);
            && Act(later, BareDelete(id, true)).shared.keychain == Empty
            && (later.shared.keychain == Stored(session) <==> exists i :: SavedSince(seen, actions, i, session))
  {
    StoredMeansSavedSince(Act(w, BareLoad(id)), actions, session);
  }

  // ---------- what a sign-out and a cancellation do ----------

  /** A sign-out that reaches its deletion empties the keychain; a deletion that fails leaves it. */
  lemma SignOutRemoves(w: World, id: nat, deleted: bool)
    requires id in w.tasks && w.tasks[id].OutAdvanced?
    ensures Act(w, OutDelete(id, deleted)).shared.keychain == if deleted then Empty else w.shared.keychain
  {
  }

  lemma {:induction false} SignOutsGrow(w: World, actions: seq<Action>)
    ensures Run(w, actions).history.signOuts >= w.history.signOuts
    decreases |actions|
  {
    if actions != [] {
      SessionsComeFromSaves(w, actions[0]);
      SignOutStep(w, actions[0]);
      SignOutsGrow(Act(w, actions[0]), actions[1..]);
    }
  }

  lemma SignOutStep(w: World, a: Action)
    ensures Act(w, a).history.signOuts >= w.history.signOuts
  {
  }

  /** After a sign-out, in every continuation, a session is stored only if an exchange saved it
      since, and that exchange read the generation after this sign-out. */
  lemma AfterSignOutOnlyNewSessions(w: World, id: nat, actions: seq<Action>, session: Session)
    requires Inv(w) && id in w.tasks && w.tasks[id].OutAdvanced?
    requires Run(Act(w, OutDelete(id, true)), actions).shared.keychain == Stored(session)
    ensures exists i :: SavedAfter(Act(w, OutDelete(id, true)), actions, i, session, w.history.signOuts)
  {
    var out := Act(w, OutDelete(id, true));
    SignOutRemoves(w, id, true);
    StoredMeansSavedSince(out, actions, session);
    var i :| SavedSince(out, actions, i, session);
    ActKeepsInv(w, OutDelete(id, true));
    SignOutStep(w, OutDelete(id, true));
    SaverReadAfter(out, actions, i, session);
    assert SavedAfter(out, actions, i, session, w.history.signOuts);
  }

  lemma SaverReadAfter(w: World, actions: seq<Action>, i: nat, session: Session)
    requires Inv(w) && SavedSince(w, actions, i, session)
    ensures SavedAfter(w, actions, i, session, w.history.signOuts)
  {
    RunKeepsInv(w, actions[..i]);
    SavingIsNotOvertaken(Run(w, actions[..i]), actions[i]);
    SignOutsGrow(w, actions[..i]);
  }

  /** The session was saved in this run by an exchange that read the generation after so many
      sign-outs, and nothing removed it since. */
  ghost predicate SavedAfter(w: World, actions: seq<Action>, i: nat, session: Session, signOuts: nat)
  {
    SavedSince(w, actions, i, session) && ReadAfter(Run(w, actions[..i]), actions[i].id, signOuts)
  }

  /** The exchange read the generation after so many sign-outs, and the same number of sign-outs
      has happened now. */
  predicate ReadAfter(w: World, t: nat, signOuts: nat)
  {
    t in w.tasks && HasClaim(w.tasks[t]) && w.tasks[t].claim.signOuts >= signOuts && w.tasks[t].claim.signOuts == w.history.signOuts
  }

  /** A callback takes the pending authorization. */
  predicate Claims(w: World, a: Action)
  {
    a.Take? && a.id in w.tasks && w.tasks[a.id].LinkReads? && w.shared.pending == Some(a.attempt)
  }

  /** A sign-in start publishes the next authorization. */
  lemma PublishingIsNumbered(w: World, id: nat)
    requires id in w.tasks && w.tasks[id].BeginHolds?
    ensures var later := Act(w, Publish(id, true));
            later.shared.pending == Some(w.history.begins + 1) && later.history.begins == w.history.begins + 1
            && later.shared.epoch == w.shared.epoch + 1
  {
  }

  /** Whatever is pending was published after the first so many. */
  predicate PendingIsAfter(w: World, begins: nat)
  {
    begins <= w.history.begins && (w.shared.pending.Some? ==> w.shared.pending.value > begins)
  }

  lemma PendingStaysAfter(w: World, a: Action, begins: nat)
    requires PendingIsAfter(w, begins)
    ensures PendingIsAfter(Act(w, a), begins)
  {
  }

  lemma {:induction false} PendingStaysAfterRun(w: World, actions: seq<Action>, begins: nat)
    requires PendingIsAfter(w, begins)
    ensures PendingIsAfter(Run(w, actions), begins)
    decreases |actions|
  {
    if actions != [] {
      PendingStaysAfter(w, actions[0], begins);
      PendingStaysAfterRun(Act(w, actions[0]), actions[1..], begins);
    }
  }

  /** The user cancels a sign-in, or a sign-out does it. */
  predicate Cancels(w: World, a: Action)
  {
    a.Cancel? || (a.OutCancel? && a.id in w.tasks && w.tasks[a.id].OutHolds?)
  }

  /** After a cancellation no callback ever claims an authorization published before it. */
  lemma CancelledIsNeverClaimed(w: World, a: Action, actions: seq<Action>, i: nat)
    requires Cancels(w, a) && i < |actions|
    requires Claims(Run(Act(w, a), actions[..i]), actions[i])
    ensures actions[i].attempt > w.history.begins
  {
    PendingStaysAfterRun(Act(w, a), actions[..i], w.history.begins);
  }

  // ---------- undisturbed runs ----------

  function SignInStart(id: nat): seq<Action>
  {
    [Start(id, BeginWaits)] + ([Acquire(id)] + ([Publish(id, true)] + []))
  }

  lemma SignInStarts(w: World, id: nat)
    requires w.lock.None? && id !in w.tasks
    ensures Run(w, SignInStart(id)) ==
            w.(shared := Begun(w.shared, w.history.begins + 1), history := w.history.(begins := w.history.begins + 1),
               tasks := w.tasks[id := Finished])
  {
    var w1 := w.(tasks := w.tasks[id := BeginWaits]);
    var w2 := w.(tasks := w.tasks[id := BeginHolds], lock := Some(id));
    RunOne(w, Start(id, BeginWaits), [Acquire(id)] + ([Publish(id, true)] + []));
    RunOne(w1, Acquire(id), [Publish(id, true)] + []);
    RunOne(w2, Publish(id, true), []);
    assert w1.tasks[id := BeginHolds] == w2.tasks;
    assert w2.tasks[id := Finished] == w.tasks[id := Finished];
  }

  function CallbackTake(id: nat, attempt: nat): seq<Action>
  {
    [StartLink(id)] + ([Take(id, attempt, false)] + ([Acquire(id)] + ([CheckExchange(id, true)] + [])))
  }

  lemma CallbackTakes(w: World, id: nat, attempt: nat)
    requires w.lock.None? && id !in w.tasks && w.shared.pending == Some(attempt)
    ensures var claim := Claim(w.shared.generation, w.shared.epoch, attempt, w.history.signOuts, w.history.begins);
            Run(w, CallbackTake(id, attempt)) ==
            w.(shared := Claimed(w.shared), tasks := w.tasks[id := LinkChecked(claim)], lock := Some(id))
  {
    var claim := Claim(w.shared.generation, w.shared.epoch, attempt, w.history.signOuts, w.history.begins);
    var w1 := w.(tasks := w.tasks[id := LinkReads(w.shared.generation, w.history.signOuts)]);
    var w2 := w.(shared := Claimed(w.shared), tasks := w.tasks[id := LinkExchanges(claim)]);
    var w3 := w2.(tasks := w.tasks[id := LinkHolds(claim)], lock := Some(id));
    RunOne(w, StartLink(id), [Take(id, attempt, false)] + ([Acquire(id)] + ([CheckExchange(id, true)] + [])));
    RunOne(w1, Take(id, attempt, false), [Acquire(id)] + ([CheckExchange(id, true)] + []));
    assert w1.tasks[id := LinkExchanges(claim)] == w2.tasks;
    RunOne(w2, Acquire(id), [CheckExchange(id, true)] + []);
    assert w2.tasks[id := LinkHolds(claim)] == w3.tasks;
    RunOne(w3, CheckExchange(id, true), []);
    assert w3.tasks[id := LinkChecked(claim)] == w.tasks[id := LinkChecked(claim)];
  }

  function CallbackSave(id: nat, session: Session): seq<Action>
  {
    [SaveSession(id, session, true)] + ([AdvanceAfterSave(id)] + ([LeaveExchange(id)] + []))
  }

  lemma CallbackSaves(w: World, id: nat, session: Session)
    requires w.lock == Some(id) && id in w.tasks && w.tasks[id].LinkChecked? && w.tasks[id].claim.epoch == w.shared.exchanging
    ensures var claim := w.tasks[id].claim;
            Run(w, CallbackSave(id, session)) ==
            w.(shared := w.shared.(keychain := Stored(session), generation := w.shared.generation + 1, exchanging := 0),
               history := w.history.(saves := w.history.saves + 1, saver := Some(claim)),
               tasks := w.tasks[id := LinkDone(claim)], lock := None)
  {
    var claim := w.tasks[id].claim;
    var w1 := w.(shared := w.shared.(keychain := Stored(session)),
                 history := w.history.(saves := w.history.saves + 1, saver := Some(claim)), tasks := w.tasks[id := LinkSaved(claim)]);
    var w2 := w1.(shared := Advanced(w1.shared), tasks := w.tasks[id := LinkLeaves(claim)], lock := None);
    RunOne(w, SaveSession(id, session, true), [AdvanceAfterSave(id)] + ([LeaveExchange(id)] + []));
    RunOne(w1, AdvanceAfterSave(id), [LeaveExchange(id)] + []);
    assert w1.tasks[id := LinkLeaves(claim)] == w2.tasks;
    RunOne(w2, LeaveExchange(id), []);
    assert w2.tasks[id := LinkDone(claim)] == w.tasks[id := LinkDone(claim)];
  }

  /** A sign-in that nothing disturbs stores its session: the authorization is used up, the marker
      is cleared, and the generation has advanced. */
  lemma UndisturbedSignInStores(w: World, begin: nat, link: nat, session: Session)
    requires w.lock.None? && begin !in w.tasks && link !in w.tasks && begin != link
    ensures var later := Run(w, SignInStart(begin) + (CallbackTake(link, w.history.begins + 1) + CallbackSave(link, session)));
            && later.shared == Shared(None, w.shared.epoch + 1, 0, w.shared.generation + 1, Stored(session))
            && later.lock.None?
  {
    var take, save := CallbackTake(link, w.history.begins + 1), CallbackSave(link, session);
    RunAppend(w, SignInStart(begin), take + save);
    SignInStarts(w, begin);
    var started := Run(w, SignInStart(begin));
    RunAppend(started, take, save);
    CallbackTakes(started, link, w.history.begins + 1);
    CallbackSaves(Run(started, take), link, session);
  }

  function SignOutStart(id: nat): seq<Action>
  {
    [Acquire(id)] + ([OutCancel(id)] + [])
  }

  lemma SignOutStarts(w: World, id: nat)
    requires w.lock.None? && id in w.tasks && w.tasks[id].OutWaits?
    ensures Run(w, SignOutStart(id)) ==
            w.(shared := CancelledSignIn(w.shared), tasks := w.tasks[id := OutCancelled], lock := Some(id))
  {
    var w1 := w.(tasks := w.tasks[id := OutHolds], lock := Some(id));
    RunOne(w, Acquire(id), [OutCancel(id)] + []);
    RunOne(w1, OutCancel(id), []);
    assert w1.tasks[id := OutCancelled] == w.tasks[id := OutCancelled];
  }

  function SignOutEnd(id: nat): seq<Action>
  {
    [OutAdvance(id)] + ([OutDelete(id, true)] + [])
  }

  lemma SignOutEnds(w: World, id: nat)
    requires w.lock == Some(id) && id in w.tasks && w.tasks[id].OutCancelled?
    ensures Run(w, SignOutEnd(id)) ==
            w.(shared := w.shared.(generation := w.shared.generation + 1, keychain := Empty),
               history := w.history.(signOuts := w.history.signOuts + 1), tasks := w.tasks[id := Finished], lock := None)
  {
    var w1 := w.(shared := Advanced(w.shared), tasks := w.tasks[id := OutAdvanced],
                 history := w.history.(signOuts := w.history.signOuts + 1));
    RunOne(w, OutAdvance(id), [OutDelete(id, true)] + []);
    RunOne(w1, OutDelete(id, true), []);
    assert w1.tasks[id := Finished] == w.tasks[id := Finished];
  }

  /** A sign-out that nothing disturbs: no pending sign-in, no session, a new epoch and a new
      generation. */
  lemma UndisturbedSignOutClears(w: World, id: nat)
    requires w.lock.None? && id in w.tasks && w.tasks[id].OutWaits?
    ensures var later := Run(w, SignOutStart(id) + SignOutEnd(id));
            && later.shared == Shared(None, w.shared.epoch + 1, w.shared.exchanging, w.shared.generation + 1, Empty)
            && later.lock.None? && later.history.signOuts == w.history.signOuts + 1
  {
    RunAppend(w, SignOutStart(id), SignOutEnd(id));
    SignOutStarts(w, id);
    SignOutEnds(Run(w, SignOutStart(id)), id);
  }

  function RecoveryStart(id: nat): seq<Action>
  {
    [StartRecover(id)] + ([RecoverLoad(id)] + ([Acquire(id)] + []))
  }

  lemma RecoveryStarts(w: World, id: nat)
    requires w.lock.None? && id !in w.tasks && w.shared.keychain.Corrupt?
    ensures Run(w, RecoveryStart(id)) == w.(tasks := w.tasks[id := RecoverHolds(w.shared.generation)], lock := Some(id))
  {
    var seen := w.shared.generation;
    var w1 := w.(tasks := w.tasks[id := RecoverReads(seen)]);
    var w2 := w.(tasks := w.tasks[id := RecoverWaits(seen)]);
    RunOne(w, StartRecover(id), [RecoverLoad(id)] + ([Acquire(id)] + []));
    RunOne(w1, RecoverLoad(id), [Acquire(id)] + []);
    assert w1.tasks[id := RecoverWaits(seen)] == w2.tasks;
    RunOne(w2, Acquire(id), []);
    assert w2.tasks[id := RecoverHolds(seen)] == w.tasks[id := RecoverHolds(seen)];
  }

  function RecoveryEnd(id: nat): seq<Action>
  {
    [RecoverCheck(id)] + ([RecoverDelete(id, true)] + ([AdvanceAfterDelete(id)] + []))
  }

  lemma ConfirmedRecoveryDeletes(w: World, id: nat)
    requires w.lock == Some(id) && id in w.tasks && w.tasks[id] == RecoverConfirmed
    ensures Run(w, [RecoverDelete(id, true)] + ([AdvanceAfterDelete(id)] + [])) ==
            w.(shared := w.shared.(generation := w.shared.generation + 1, keychain := Empty), tasks := w.tasks[id := Finished],
               lock := None)
  {
    var w1 := w.(tasks := w.tasks[id := RecoverDeleted], shared := w.shared.(keychain := Empty));
    RunOne(w, RecoverDelete(id, true), [AdvanceAfterDelete(id)] + []);
    assert Act(w, RecoverDelete(id, true)) == w1;
    RunOne(w1, AdvanceAfterDelete(id), []);
    assert w1.tasks[id := Finished] == w.tasks[id := Finished];
  }

  lemma RecoveryEnds(w: World, id: nat)
    requires w.lock == Some(id) && id in w.tasks && w.tasks[id] == RecoverHolds(w.shared.generation)
    ensures Run(w, RecoveryEnd(id)) ==
            w.(shared := w.shared.(generation := w.shared.generation + 1, keychain := Empty), tasks := w.tasks[id := Finished],
               lock := None)
  {
    var w1 := w.(tasks := w.tasks[id := RecoverConfirmed]);
    RunOne(w, RecoverCheck(id), [RecoverDelete(id, true)] + ([AdvanceAfterDelete(id)] + []));
    assert Act(w, RecoverCheck(id)) == w1;
    ConfirmedRecoveryDeletes(w1, id);
    assert w1.tasks[id := Finished] == w.tasks[id := Finished];
  }

  /** A locked recovery that nothing disturbs removes a corrupt item, advances the generation, and
      changes nothing else. */
  lemma UndisturbedRecoveryClears(w: World, id: nat)
    requires w.lock.None? && id !in w.tasks && w.shared.keychain.Corrupt?
    ensures Run(w, RecoveryStart(id) + RecoveryEnd(id)) ==
            w.(shared := w.shared.(generation := w.shared.generation + 1, keychain := Empty), tasks := w.tasks[id := Finished])
  {
    RunAppend(w, RecoveryStart(id), RecoveryEnd(id));
    RecoveryStarts(w, id);
    var held := Run(w, RecoveryStart(id));
    RecoveryEnds(held, id);
    assert held.tasks[id := Finished] == w.tasks[id := Finished];
  }

  /** An exchange that leaves clears its own marker. */
  lemma LeavingClearsOwnMarker(w: World, id: nat)
    requires id in w.tasks && w.tasks[id].LinkLeaves?
    ensures var later := Act(w, LeaveExchange(id));
            && later.tasks[id] == LinkDone(w.tasks[id].claim)
            && (w.shared.exchanging == w.tasks[id].claim.epoch ==> later.shared == w.shared.(exchanging := 0))
  {
  }

  // ---------- two races the lock does not cover ----------

  ghost predicate Reachable(w: World)
  {
    exists keychain, actions :: Run(Initial(keychain), actions) == w
  }

  lemma {:induction false} RunAppend(w: World, first: seq<Action>, second: seq<Action>)
    ensures Run(w, first + second) == Run(Run(w, first), second)
    decreases |first|
  {
    if first == [] {
      assert first + second == second;
    } else {
      assert (first + second)[1..] == first[1..] + second;
      RunAppend(Act(w, first[0]), first[1..], second);
    }
  }

  lemma ReachableStep(w: World, a: Action)
    requires Reachable(w)
    ensures Reachable(Act(w, a))
  {
    var keychain, actions :| Run(Initial(keychain), actions) == w;
    RunAppend(Initial(keychain), actions, [a]);
    assert Run(w, [a]) == Run(Act(w, a), []);
    assert Run(Initial(keychain), actions + [a]) == Act(w, a);
  }

  /** A sign-in up to the check of its exchange, beside a task that saw a corrupt item. */
  lemma CheckedWorld() returns (w: World)
    ensures Reachable(w)
    ensures 0 in w.tasks && w.tasks[0] == BareSeen(0) && 2 in w.tasks && w.tasks[2].LinkChecked?
    ensures w.tasks[2].claim.epoch == w.shared.epoch
  {
    w := Initial(Corrupt);
    assert Run(w, []) == w;
    w := PublishedWorld(w);
    ReachableStep(w, StartLink(2));
    w := Act(w, StartLink(2));
    ReachableStep(w, Take(2, 1, false));
    w := Act(w, Take(2, 1, false));
    ReachableStep(w, Acquire(2));
    w := Act(w, Acquire(2));
    ReachableStep(w, CheckExchange(2, true));
    w := Act(w, CheckExchange(2, true));
  }

  lemma PublishedWorld(w0: World) returns (w: World)
    requires Reachable(w0) && w0 == Initial(Corrupt)
    ensures Reachable(w) && w.tasks == map[0 := BareSeen(0), 1 := Finished] && w.lock.None? && w.shared.pending == Some(1)
  {
    w := w0;
    ReachableStep(w, BareLoad(0));
    w := Act(w, BareLoad(0));
    ReachableStep(w, Start(1, BeginWaits));
    w := Act(w, Start(1, BeginWaits));
    ReachableStep(w, Acquire(1));
    w := Act(w, Acquire(1));
    ReachableStep(w, Publish(1, true));
    w := Act(w, Publish(1, true));
  }

  /** The recovery without the lock can remove a session that was stored after it looked. */
  lemma BareRecoveryCanRemoveNewSession(session: Session) returns (stored: World)
    ensures Reachable(stored) && stored.shared.keychain == Stored(session)
    ensures 0 in stored.tasks && Act(stored, BareDelete(0, true)).shared.keychain == Empty
  {
    var checked := CheckedWorld();
    stored := Act(checked, SaveSession(2, session, true));
    ReachableStep(checked, SaveSession(2, session, true));
  }

  /** A sign-in cancelled between the check and the save is stored all the same. */
  lemma CancelCanComeTooLate(session: Session) returns (late: World)
    ensures Reachable(late) && late.shared.keychain == Stored(session)
    ensures late.history.saver.Some? && late.history.saver.value.epoch < late.shared.epoch
  {
    var checked := CheckedWorld();
    ReachableStep(checked, Cancel);
    var cancelled := Act(checked, Cancel);
    ReachableStep(cancelled, SaveSession(2, session, true));
    late := Act(cancelled, SaveSession(2, session, true));
  }
}
