/** The count word of one captured frame, and every atomic step any task may take on it.
 *
 *  runtime/src/value.c packs references, calls in progress, holds and a judging flag into one
 *  word, so that each step of the frame-cycle judgement is one atomic operation.  Here the
 *  frame, the closures over it, and any number of agents are one state; an agent is one
 *  activity of a thread (a call, a release, a judgement), and its `Pc` says which
 *  atomic operation of the source comes next.  Steps of different agents interleave freely.
 */
module FrameProtocol {
  import opened Options

  type Closure = nat

  /** One activity; several may share a thread (a judgement made inside a release). */
  datatype Agent = Agent(thread: nat, id: nat)

  /** The packed count word. */
  datatype Word = Word(refs: nat, acts: nat, holds: nat, judging: bool)

  predicate Zero(w: Word) {
    w == Word(0, 0, 0, false)
  }

  /** A place reachable from the frame's registers: the closure over the frame it holds,
   *  and how many holders outside the frame the containers on the way to it have. */
  datatype Slot = Slot(clo: Option<Closure>, extra: nat)

  datatype Pc =
    | Idle
    | Owner                                   // the frame's own activation
    | Clearing                                // the activation in vl_frame_clear
    | Plain                                   // a frame under it that never counted as a call
    | Waiting                                 // a call inside frame_enter, seeing the flag up
    | Running                                 // a call past frame_enter
    | RelSeen(c: Closure)                     // vl_release read `done` as set
    | RelUnheld(c: Closure)                   // vl_release read `done` as clear
    | RelHeld(c: Closure)                     // vl_release holds the frame
    | Unholding(carries: bool)                // frame_unhold; then, perhaps, a dead closure to free
    | Dead                                    // vl_release, about to free a dead closure or park it
    | Unpacked                                // vl_release of what a dead container held
    | Dropping                                // frame_release_judged
    | Enter(born: nat)                        // self_cycle_only, at its first line
    | ReaperTest(born: nat)
    | Top(born: nat)                          // head of the judging loop
    | Deferring(born: nat)                    // defer_judgement saw calls in progress
    | Look(born: nat)
    | Store(born: nat)                        // about to set `pending`
    | Check(born: nat)                        // about to look at the flag again
    | Swap(born: nat, c0: Word)               // about to raise the flag
    | Clear(born: nat, c0: Word, seen: set<Closure>)
    | Read(born: nat, c0: Word, seen: set<Closure>, i: nat, known: set<Closure>)
    | Verdict(born: nat, c0: Word, seen: set<Closure>, known: set<Closure>)
    | Void(born: nat)                         // the verdict's compare-and-swap failed
    | Exchange(born: nat)                     // about to take `pending`
    | ReapStart
    | Reap(i: nat)
    | ReapHeld(i: nat)                        // vl_release of the reaped closure, holding
    | ReapDead(i: nat)                        // the same vl_release, about to free the closure or park it
    | ReapDrop(i: nat)                        // the closure is gone; its reference is not
    | ReapUnhold(i: nat)
    | ReapEnd
    | ReapFlag

  /** The whole state.  `freeing` are the threads inside obj_free, on whose worklists dead objects are
   *  parked: `parked` has one entry, the thread, for each dead closure there, and `crated` one for
   *  each closure whose only holder is a dead container there.  `garbage`, `begun`, `stood`,
   *  `lastStore` and `left` are history: whether a garbage verdict stood; how many readings of the
   *  registers have begun; the number of the last reading whose verdict stood; the readings begun
   *  when `pending` was last set; and the latest drop (numbered by the readings begun before it)
   *  whose agent left its judgement to another. */
  datatype State = State(
    word: Word, done: bool, pending: bool, reaper: Option<nat>, deferred: nat, freed: nat,
    slots: seq<Slot>, ext: map<Closure, nat>, pcs: map<Agent, Pc>,
    freeing: set<nat>, parked: multiset<nat>, crated: multiset<nat>,
    garbage: bool, begun: nat, stood: nat, lastStore: int, left: int)

  /** How many slots hold closure c. */
  function Count(slots: seq<Slot>, c: Closure): nat {
    if slots == [] then 0
    else (if slots[0].clo == Some(c) then 1 else 0) + Count(slots[1..], c)
  }

  /** The reference count of closure c: slots, and holders outside (those letting go included). */
  function Rc(s: State, c: Closure): nat
    requires c in s.ext
  {
    Count(s.slots, c) + s.ext[c]
  }

  /** What an agent at some point accounts for. */
  datatype Role =
    | Ref | Act | Hold | Second               // shares of the word
    | Flag                                    // owns the judging flag
    | Run | Own | Clr                         // may write registers
    | Letting(c: Closure)                     // is releasing closure c
    | Active | Reading | Taking | Checking    // still owes the frame a judgement
    | User                                    // refers to the frame in order to use it
    | Sweeping                                // clears the registers of a condemned frame

  predicate Plays(p: Pc, r: Role) {
    match r
    case Ref =>
      p.Owner? || p.Clearing? || p.Plain? || p.Waiting? || p.Running? || p.Dropping? || p.Dead? || p.Unpacked?
      || (p.Unholding? && p.carries) || p.ReapHeld? || p.ReapDead? || p.ReapDrop?
    case Act => p.Waiting? || p.Running?
    case Hold => p.RelHeld? || p.Unholding? || Judging(p)
    case Second => p.ReapHeld? || p.ReapUnhold?
    case Flag => p.Clear? || p.Read? || p.Verdict? || p.Void? || Reaping(p)
    case Run => p.Running?
    case Own => p.Owner?
    case Clr => p.Clearing?
    case Letting(c) => (p.RelSeen? || p.RelUnheld? || p.RelHeld?) && p.c == c
    case Active =>
      p.Enter? || p.ReaperTest? || p.Top? || p.Deferring? || p.Look? || p.Store? || p.Swap?
      || p.Clear? || p.Void? || Reaping(p)
    case Reading => p.Read? || p.Verdict?
    case Taking => p.Exchange?
    case Checking => p.Check?
    case User => p.Owner? || p.Clearing? || p.Plain? || p.Waiting? || p.Running?
    case Sweeping => Reaping(p)
  }

  /** Inside self_cycle_only, with its caller's hold. */
  predicate Judging(p: Pc) {
    p.Enter? || AfterDone(p)
  }

  /** Inside self_cycle_only, past the test of `done`. */
  predicate AfterDone(p: Pc) {
    p.ReaperTest? || p.Top? || p.Deferring? || p.Look? || p.Store? || p.Check? || p.Swap?
    || p.Clear? || p.Read? || p.Verdict? || p.Void? || p.Exchange? || Reaping(p)
  }

  predicate Reaping(p: Pc) {
    p.ReapStart? || p.Reap? || p.ReapHeld? || p.ReapDead? || p.ReapDrop? || p.ReapUnhold? || p.ReapEnd?
    || p.ReapFlag?
  }

  function Who(pcs: map<Agent, Pc>, r: Role): set<Agent> {
    set a | a in pcs && Plays(pcs[a], r)
  }

  /** How many agents play role r. */
  function N(pcs: map<Agent, Pc>, r: Role): nat {
    |Who(pcs, r)|
  }

  /* ------------------------------------------------------------ steps */

  predicate At(s: State, a: Agent, p: Pc) {
    a in s.pcs && s.pcs[a] == p
  }

  function Go(s: State, a: Agent, p: Pc): State {
    s.(pcs := s.pcs[a := p])
  }

  /** The word is lowered to w; at zero the frame is freed. */
  function Lower(s: State, w: Word): State {
    s.(word := w, freed := s.freed + if Zero(w) then 1 else 0)
  }

  /** Somebody outside the frame holds c, and is not letting go of it. */
  predicate HeldOutside(s: State, c: Closure) {
    c in s.ext && N(s.pcs, Letting(c)) < s.ext[c]
  }

  /** The agent may write slot i: it is code of the frame, or the slot's container is shared. */
  predicate MayWrite(s: State, a: Agent, i: nat) {
    i < |s.slots| && a in s.pcs
    && (s.slots[i].extra > 0 || s.pcs[a].Owner? || s.pcs[a].Running? || (s.pcs[a].Plain? && !s.done))
  }

  /* The code that runs over the frame, or beside it: closures are made, and move between
     registers, containers and outside holders. */

  /** vl_closure_new */
  predicate MakesClosure(s: State, a: Agent, c: Closure, t: State) {
    a in s.pcs && (s.pcs[a].Owner? || s.pcs[a].Running? || (s.pcs[a].Plain? && !s.done)) && c !in s.ext
    && t == s.(word := s.word.(refs := s.word.refs + 1), ext := s.ext[c := 1])
  }

  predicate Loads(s: State, a: Agent, i: nat, t: State) {
    MayWrite(s, a, i) && s.slots[i].clo.Some? && s.slots[i].clo.value in s.ext
    && t == s.(ext := s.ext[s.slots[i].clo.value := s.ext[s.slots[i].clo.value] + 1])
  }

  predicate Puts(s: State, a: Agent, i: nat, c: Closure, t: State) {
    MayWrite(s, a, i) && s.slots[i].clo.None? && HeldOutside(s, c)
    && t == s.(ext := s.ext[c := s.ext[c] - 1], slots := s.slots[i := s.slots[i].(clo := Some(c))])
  }

  /** An overwritten register, or one that vl_frame_clear empties; what it held is released next. */
  predicate Takes(s: State, a: Agent, i: nat, t: State) {
    (MayWrite(s, a, i) || (At(s, a, Clearing) && i < |s.slots|))
    && s.slots[i].clo.Some? && s.slots[i].clo.value in s.ext
    && t == s.(ext := s.ext[s.slots[i].clo.value := s.ext[s.slots[i].clo.value] + 1],
               slots := s.slots[i := s.slots[i].(clo := None)])
  }

  /** vl_retain */
  predicate Shares(s: State, c: Closure, t: State) {
    HeldOutside(s, c) && t == s.(ext := s.ext[c := s.ext[c] + 1])
  }

  /** The container of slot i is shared with more or fewer outside holders. */
  predicate Contains(s: State, a: Agent, i: nat, extra: nat, t: State) {
    MayWrite(s, a, i) && t == s.(slots := s.slots[i := s.slots[i].(extra := extra)])
  }

  /* Calls of closures over the frame, and the end of the frame's own function. */

  /** frame_enter: one increment counts the call and shows whether the flag is up. */
  predicate Enters(s: State, a: Agent, c: Closure, t: State) {
    At(s, a, Idle) && HeldOutside(s, c)
    && t == Go(s, a, if s.word.judging && s.reaper != Some(a.thread) then Waiting else Running)
            .(word := s.word.(refs := s.word.refs + 1, acts := s.word.acts + 1))
  }

  predicate EndsWait(s: State, a: Agent, t: State) {
    At(s, a, Waiting) && !s.word.judging && t == Go(s, a, Running)
  }

  /** frame_exit */
  predicate Exits(s: State, a: Agent, t: State) {
    At(s, a, Running) && s.word.refs > 0 && s.word.acts > 0
    && t == Lower(Go(s, a, Idle), s.word.(refs := s.word.refs - 1, acts := s.word.acts - 1))
  }

  /** vl_frame_clear sets `done`. */
  predicate Finishes(s: State, a: Agent, t: State) {
    At(s, a, Owner) && t == Go(s, a, Clearing).(done := true)
  }

  predicate Leaves(s: State, a: Agent, t: State) {
    (At(s, a, Clearing) || At(s, a, Plain)) && t == Go(s, a, Dropping)
  }

  /* Letting go of closures and of the frame. */

  /** vl_release reads `done`, before it decrements. */
  predicate BeginsRelease(s: State, a: Agent, c: Closure, t: State) {
    At(s, a, Idle) && HeldOutside(s, c) && t == Go(s, a, if s.done then RelSeen(c) else RelUnheld(c))
  }

  predicate TakesHold(s: State, a: Agent, t: State) {
    a in s.pcs && s.pcs[a].RelSeen?
    && t == Go(s, a, RelHeld(s.pcs[a].c)).(word := s.word.(holds := s.word.holds + 1))
  }

  /** Where vl_release goes when its decrement left `left` holders. */
  function Released(left: nat, held: bool, now: nat): Pc {
    if left == 0 then (if held then Unholding(true) else Dead)
    else if held then (if left == 1 then Enter(now) else Unholding(false))
    else Idle
  }

  /** vl_release's decrement; at zero the closure is dead and its reference to the frame is next. */
  predicate DropsClosure(s: State, a: Agent, t: State) {
    a in s.pcs && (s.pcs[a].RelUnheld? || s.pcs[a].RelHeld?) && s.pcs[a].c in s.ext
    && s.ext[s.pcs[a].c] > 0
    && var left := Rc(s, s.pcs[a].c) - 1;
    t == Go(s, a, Released(left, s.pcs[a].RelHeld?, s.begun))
         .(ext := if left == 0 then s.ext - {s.pcs[a].c} else s.ext[s.pcs[a].c := s.ext[s.pcs[a].c] - 1])
  }

  /** frame_unhold */
  predicate Unholds(s: State, a: Agent, t: State) {
    a in s.pcs && s.pcs[a].Unholding? && s.word.holds > 0
    && t == Lower(Go(s, a, if s.pcs[a].carries then Dead else Idle), s.word.(holds := s.word.holds - 1))
  }

  /* vl_release once an object is dead.  The outermost one frees it, and then what is parked; one
     inside obj_free parks it.  A thread is inside obj_free for other objects as well, and may
     leave whenever its worklist is empty. */

  predicate BeginsFreeing(s: State, a: Agent, t: State) {
    t == s.(freeing := s.freeing + {a.thread})
  }

  predicate EndsFreeing(s: State, a: Agent, t: State) {
    a.thread !in s.parked && a.thread !in s.crated && t == s.(freeing := s.freeing - {a.thread})
  }

  /** The outermost release: obj_free drops the closure's reference. */
  predicate FreesClosure(s: State, a: Agent, t: State) {
    At(s, a, Dead) && a.thread !in s.freeing && t == Go(s, a, Dropping).(freeing := s.freeing + {a.thread})
  }

  /** park_dead */
  predicate ParksClosure(s: State, a: Agent, t: State) {
    At(s, a, Dead) && a.thread in s.freeing && t == Go(s, a, Idle).(parked := s.parked + multiset{a.thread})
  }

  /** The outermost release takes a closure off the worklist. */
  predicate DrainsClosure(s: State, a: Agent, t: State) {
    At(s, a, Idle) && a.thread in s.parked && t == Go(s, a, Dropping).(parked := s.parked - multiset{a.thread})
  }

  /** It takes a container off the worklist, and releases a closure that only the container held. */
  predicate Unpacks(s: State, a: Agent, t: State) {
    At(s, a, Idle) && a.thread in s.crated && t == Go(s, a, Unpacked).(crated := s.crated - multiset{a.thread})
  }

  /** That release holds the frame and decrements: the closure is dead. */
  predicate UnpacksLast(s: State, a: Agent, t: State) {
    At(s, a, Unpacked) && t == Go(s, a, Unholding(true)).(word := s.word.(holds := s.word.holds + 1))
  }

  /** frame_release_judged: while others remain, the reference becomes a hold. */
  predicate DropsToHold(s: State, a: Agent, t: State) {
    At(s, a, Dropping) && s.word.refs > 1
    && t == Go(s, a, Enter(s.begun)).(word := s.word.(refs := s.word.refs - 1, holds := s.word.holds + 1))
  }

  /** frame_release_judged: the last reference goes. */
  predicate DropsLast(s: State, a: Agent, t: State) {
    At(s, a, Dropping) && s.word.refs == 1
    && t == Lower(Go(s, a, Idle), s.word.(refs := 0))
  }

  /* self_cycle_only up to the raising of the flag, and vl_judge_deferred. */

  /** vl_judge_deferred takes one entry, with its hold. */
  predicate Picks(s: State, a: Agent, t: State) {
    At(s, a, Idle) && s.deferred > 0 && t == Go(s, a, Enter(s.begun)).(deferred := s.deferred - 1)
  }

  predicate TestsDone(s: State, a: Agent, t: State) {
    a in s.pcs && s.pcs[a].Enter? && t == Go(s, a, if s.done then ReaperTest(s.pcs[a].born) else Unholding(false))
  }

  predicate TestsReaper(s: State, a: Agent, t: State) {
    a in s.pcs && s.pcs[a].ReaperTest?
    && t == Go(s, a, if s.reaper == Some(a.thread) then Unholding(false) else Top(s.pcs[a].born))
  }

  predicate TestsActs(s: State, a: Agent, t: State) {
    a in s.pcs && s.pcs[a].Top?
    && t == Go(s, a, if s.word.acts > 0 then Deferring(s.pcs[a].born) else Look(s.pcs[a].born))
  }

  predicate Defers(s: State, a: Agent, t: State) {
    a in s.pcs && s.pcs[a].Deferring? && t == Go(s, a, Idle).(deferred := s.deferred + 1)
  }

  predicate Looks(s: State, a: Agent, t: State) {
    a in s.pcs && s.pcs[a].Look?
    && t == Go(s, a, if s.word.acts > 0 then Top(s.pcs[a].born)
                     else if s.word.judging then Store(s.pcs[a].born)
                     else Swap(s.pcs[a].born, s.word))
  }

  predicate SetsPending(s: State, a: Agent, t: State) {
    a in s.pcs && s.pcs[a].Store? && t == Go(s, a, Check(s.pcs[a].born)).(pending := true, lastStore := s.begun)
  }

  /** The flag is still up: the judgement is left to the judge who raised it. */
  predicate LeavesIt(s: State, a: Agent, t: State) {
    a in s.pcs && s.pcs[a].Check? && s.word.judging
    && t == Go(s, a, Unholding(false)).(left := if s.pcs[a].born > s.left then s.pcs[a].born else s.left)
  }

  predicate Retries(s: State, a: Agent, t: State) {
    a in s.pcs && (s.pcs[a].Check? || s.pcs[a].Swap?)
    && (if s.pcs[a].Check? then !s.word.judging else s.word != s.pcs[a].c0)
    && t == Go(s, a, Top(s.pcs[a].born))
  }

  predicate Raises(s: State, a: Agent, t: State) {
    a in s.pcs && s.pcs[a].Swap? && s.word == s.pcs[a].c0
    && t == Go(s, a, Clear(s.pcs[a].born, s.word, s.ext.Keys)).(word := s.word.(judging := true))
  }

  /* self_cycle_only with the flag up, to its verdict. */

  /** The judge counts the closure in slot i: nothing but the frame holds it. */
  predicate Counts(s: State, i: nat) {
    i < |s.slots| && s.slots[i].clo.Some? && s.slots[i].clo.value in s.ext
    && s.slots[i].extra == 0 && Rc(s, s.slots[i].clo.value) == 1
  }

  predicate BeginsReading(s: State, a: Agent, t: State) {
    a in s.pcs && s.pcs[a].Clear?
    && t == Go(s, a, Read(s.pcs[a].born, s.pcs[a].c0, s.pcs[a].seen, 0, {})).(pending := false, begun := s.begun + 1)
  }

  /** A slot that could be counted may be passed over: a shallow judgement looks only at the
   *  registers, and the walk has a budget. */
  predicate ReadsSlot(s: State, a: Agent, counted: bool, t: State) {
    a in s.pcs && s.pcs[a].Read? && s.pcs[a].i < |s.slots| && (counted ==> Counts(s, s.pcs[a].i))
    && var p := s.pcs[a];
    t == Go(s, a, Read(p.born, p.c0, p.seen, p.i + 1, if counted then p.known + {s.slots[p.i].clo.value} else p.known))
  }

  predicate EndsReading(s: State, a: Agent, t: State) {
    a in s.pcs && s.pcs[a].Read? && s.pcs[a].i >= |s.slots|
    && t == Go(s, a, Verdict(s.pcs[a].born, s.pcs[a].c0, s.pcs[a].seen, s.pcs[a].known))
  }

  predicate FindsGarbage(p: Pc)
    requires p.Verdict?
  {
    |p.known| > 0 && |p.known| == p.c0.refs
  }

  /** The second compare-and-swap succeeds on a garbage verdict: the flag stays up. */
  predicate Condemns(s: State, a: Agent, t: State) {
    a in s.pcs && s.pcs[a].Verdict? && s.word == s.pcs[a].c0.(judging := true) && FindsGarbage(s.pcs[a])
    && t == Go(s, a, ReapStart).(garbage := true, stood := s.begun)
  }

  /** It succeeds on any other verdict, and drops the flag. */
  predicate Acquits(s: State, a: Agent, t: State) {
    a in s.pcs && s.pcs[a].Verdict? && s.word == s.pcs[a].c0.(judging := true) && !FindsGarbage(s.pcs[a])
    && t == Go(s, a, Exchange(s.pcs[a].born)).(word := s.pcs[a].c0, stood := s.begun)
  }

  predicate Voids(s: State, a: Agent, t: State) {
    a in s.pcs && s.pcs[a].Verdict? && s.word != s.pcs[a].c0.(judging := true)
    && t == Go(s, a, Void(s.pcs[a].born))
  }

  predicate LooksAgain(s: State, a: Agent, t: State) {
    a in s.pcs && s.pcs[a].Void? && t == Go(s, a, Top(s.pcs[a].born)).(word := s.word.(judging := false))
  }

  predicate TakesPending(s: State, a: Agent, t: State) {
    a in s.pcs && s.pcs[a].Exchange?
    && t == Go(s, a, if s.pending then Top(s.pcs[a].born) else Unholding(false)).(pending := false)
  }

  /* self_cycle_only clearing the registers of a frame found to be garbage. */

  predicate BeginsReaping(s: State, a: Agent, t: State) {
    At(s, a, ReapStart) && t == Go(s, a, Reap(0)).(reaper := Some(a.thread))
  }

  predicate PassesSlot(s: State, a: Agent, t: State) {
    a in s.pcs && s.pcs[a].Reap? && s.pcs[a].i < |s.slots| && !Counts(s, s.pcs[a].i)
    && t == Go(s, a, Reap(s.pcs[a].i + 1))
  }

  /** Slot i, whose closure nothing else holds, is emptied. */
  function Emptied(s: State, i: nat): State
    requires i < |s.slots| && s.slots[i].clo.Some?
  {
    s.(slots := s.slots[i := s.slots[i].(clo := None)], ext := s.ext - {s.slots[i].clo.value})
  }

  /** vl_release of the register's closure, or of one in a container that is freed at once.  Its only
   *  holder was the slot, so it is dead from this step on. */
  predicate ReapsSlot(s: State, a: Agent, t: State) {
    a in s.pcs && s.pcs[a].Reap? && s.pcs[a].i < |s.slots| && Counts(s, s.pcs[a].i)
    && t == Go(Emptied(s, s.pcs[a].i), a, ReapHeld(s.pcs[a].i)).(word := s.word.(holds := s.word.holds + 1))
  }

  /** vl_release of the container the slot is in, when it only parks that. */
  predicate ReapsCrate(s: State, a: Agent, t: State) {
    a in s.pcs && s.pcs[a].Reap? && s.pcs[a].i < |s.slots| && Counts(s, s.pcs[a].i) && a.thread in s.freeing
    && t == Go(Emptied(s, s.pcs[a].i), a, Reap(s.pcs[a].i + 1)).(crated := s.crated + multiset{a.thread})
  }

  predicate ReapUnholds(s: State, a: Agent, t: State) {
    a in s.pcs && (s.pcs[a].ReapHeld? || s.pcs[a].ReapUnhold?) && s.word.holds > 0
    && t == Lower(Go(s, a, if s.pcs[a].ReapHeld? then ReapDead(s.pcs[a].i) else Reap(s.pcs[a].i + 1)),
               s.word.(holds := s.word.holds - 1))
  }

  /** The judgement is not made inside obj_free: the closure is freed at once. */
  predicate ReapFrees(s: State, a: Agent, t: State) {
    a in s.pcs && s.pcs[a].ReapDead? && a.thread !in s.freeing
    && t == Go(s, a, ReapDrop(s.pcs[a].i)).(freeing := s.freeing + {a.thread})
  }

  /** It is: the closure is parked, and its reference stays until the outermost release drains. */
  predicate ReapParks(s: State, a: Agent, t: State) {
    a in s.pcs && s.pcs[a].ReapDead? && a.thread in s.freeing
    && t == Go(s, a, Reap(s.pcs[a].i + 1)).(parked := s.parked + multiset{a.thread})
  }

  /** frame_release_judged on the reaping thread; the judgement it would make ends at once. */
  predicate ReapDropsToHold(s: State, a: Agent, t: State) {
    a in s.pcs && s.pcs[a].ReapDrop? && s.word.refs > 1
    && t == Go(s, a, ReapUnhold(s.pcs[a].i)).(word := s.word.(refs := s.word.refs - 1, holds := s.word.holds + 1))
  }

  predicate ReapDropsLast(s: State, a: Agent, t: State) {
    a in s.pcs && s.pcs[a].ReapDrop? && s.word.refs == 1
    && t == Lower(Go(s, a, Reap(s.pcs[a].i + 1)), s.word.(refs := 0))
  }

  predicate EndsSlots(s: State, a: Agent, t: State) {
    a in s.pcs && s.pcs[a].Reap? && s.pcs[a].i >= |s.slots| && t == Go(s, a, ReapEnd)
  }

  predicate EndsReaping(s: State, a: Agent, t: State) {
    At(s, a, ReapEnd) && t == Go(s, a, ReapFlag).(reaper := None)
  }

  predicate LowersFlag(s: State, a: Agent, t: State) {
    At(s, a, ReapFlag) && t == Go(s, a, Unholding(false)).(word := s.word.(judging := false))
  }

  /* ------------------------------------------------------------ runs */

  predicate Mutates(s: State, t: State, a: Agent, c: Closure, i: nat, extra: nat) {
    MakesClosure(s, a, c, t) || Loads(s, a, i, t) || Puts(s, a, i, c, t) || Takes(s, a, i, t) || Shares(s, c, t)
    || Contains(s, a, i, extra, t)
  }

  predicate Calls(s: State, t: State, a: Agent, c: Closure) {
    Enters(s, a, c, t) || EndsWait(s, a, t) || Exits(s, a, t) || Finishes(s, a, t) || Leaves(s, a, t)
  }

  predicate Releases(s: State, t: State, a: Agent, c: Closure) {
    BeginsRelease(s, a, c, t) || TakesHold(s, a, t) || DropsClosure(s, a, t) || Unholds(s, a, t)
    || DropsToHold(s, a, t) || DropsLast(s, a, t)
  }

  predicate Approaches(s: State, t: State, a: Agent) {
    Picks(s, a, t) || TestsDone(s, a, t) || TestsReaper(s, a, t) || TestsActs(s, a, t) || Defers(s, a, t)
  }

  predicate Contends(s: State, t: State, a: Agent) {
    Looks(s, a, t) || SetsPending(s, a, t) || LeavesIt(s, a, t) || Retries(s, a, t) || Raises(s, a, t)
  }

  predicate Inspects(s: State, t: State, a: Agent) {
    BeginsReading(s, a, t) || ReadsSlot(s, a, true, t) || ReadsSlot(s, a, false, t) || EndsReading(s, a, t)
  }

  predicate Decides(s: State, t: State, a: Agent) {
    Condemns(s, a, t) || Acquits(s, a, t) || Voids(s, a, t) || LooksAgain(s, a, t) || TakesPending(s, a, t)
  }

  predicate Drains(s: State, t: State, a: Agent) {
    BeginsFreeing(s, a, t) || EndsFreeing(s, a, t) || FreesClosure(s, a, t) || ParksClosure(s, a, t)
    || DrainsClosure(s, a, t) || Unpacks(s, a, t) || UnpacksLast(s, a, t)
  }

  predicate Reaps(s: State, t: State, a: Agent) {
    BeginsReaping(s, a, t) || PassesSlot(s, a, t) || ReapsSlot(s, a, t) || ReapsCrate(s, a, t)
    || EndsSlots(s, a, t) || EndsReaping(s, a, t) || LowersFlag(s, a, t)
  }

  /** The reaper's releases. */
  predicate ReapReleases(s: State, t: State, a: Agent) {
    ReapUnholds(s, a, t) || ReapFrees(s, a, t) || ReapParks(s, a, t) || ReapDropsToHold(s, a, t)
    || ReapDropsLast(s, a, t)
  }

  /** Who takes a step, and the closure, slot and sharing it is about. */
  datatype Label = Label(a: Agent, c: Closure, i: nat, extra: nat)

  predicate Step(s: State, x: Label, t: State) {
    Mutates(s, t, x.a, x.c, x.i, x.extra) || Calls(s, t, x.a, x.c) || Releases(s, t, x.a, x.c)
    || Drains(s, t, x.a) || Approaches(s, t, x.a) || Contends(s, t, x.a) || Inspects(s, t, x.a) || Decides(s, t, x.a)
    || Reaps(s, t, x.a) || ReapReleases(s, t, x.a)
  }

  /** A frame just captured for the first time: its function is running, some frames under it may
   *  have entered before it was captured, no closure over it is made yet. */
  predicate Init(s: State) {
    (forall a | a in s.pcs :: s.pcs[a].Idle? || s.pcs[a].Owner? || s.pcs[a].Plain?)
    && N(s.pcs, Own) == 1
    && s.word == Word(N(s.pcs, Ref), 0, 0, false)
    && (forall i | 0 <= i < |s.slots| :: s.slots[i].clo == None)
    && s.ext == map[] && s.parked == multiset{} && s.crated == multiset{}
    && !s.done && !s.pending && s.reaper == None && s.deferred == 0 && s.freed == 0
    && !s.garbage && s.begun == 0 && s.stood == 0 && s.lastStore == -1 && s.left == -1
  }

  /** A whole run: the states ss, one action between each two. */
  predicate Trace(ss: seq<State>, xs: seq<Label>) {
    |ss| == |xs| + 1 && Init(ss[0]) && forall i | 0 <= i < |xs| :: Step(ss[i], xs[i], ss[i + 1])
  }
}
