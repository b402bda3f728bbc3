/** The `Index` page: the doneness table and its lookup, the five session
    flags with the handlers that change them, the render guards that decide
    which handler can run, and how the page drives the `Timer`. */
module Index {
  import opened Wrappers
  import Timer
  import CookingInstructions

  // ---------------------------------------------------------------------
  // The doneness table.

  datatype DonenessOption = DonenessOption(id: string, labelText: string, time: int, color: string)

  const DonenessOptions: seq<DonenessOption> := [
    DonenessOption("rare", "三分熟", 240, "#E53935"),
    DonenessOption("medium-rare", "四分熟", 300, "#D32F2F"),
    DonenessOption("medium", "五分熟", 360, "#C62828"),
    DonenessOption("medium-well", "七分熟", 420, "#B71C1C"),
    DonenessOption("well-done", "全熟", 480, "#8B0000")
  ]

  /** The table's ids are pairwise distinct and its cooking times are 240,
      300, 360, 420 and 480 seconds. */
  lemma TableFacts()
    ensures |DonenessOptions| == 5
    ensures forall i, j :: 0 <= i < j < |DonenessOptions| ==> DonenessOptions[i].id != DonenessOptions[j].id
    ensures forall i :: 0 <= i < |DonenessOptions| ==> DonenessOptions[i].time == 240 + 60 * i
  {
  }

  /** `options.find((opt) => opt.id === id)`, as the index it finds. */
  function Find(options: seq<DonenessOption>, id: string): (r: Option<nat>)
    ensures r.Some? ==> r.value < |options| && options[r.value].id == id
    ensures r.Some? ==> forall j :: 0 <= j < r.value ==> options[j].id != id
    ensures r.None? ==> forall j :: 0 <= j < |options| ==> options[j].id != id
  {
    if options == [] then None
    else if options[0].id == id then Some(0)
    else match Find(options[1..], id)
      case None => None
      case Some(k) => Some(k + 1)
  }

  /** `DONENESS_OPTIONS.find(...) || DONENESS_OPTIONS[0]`. */
  function SelectedOption(id: string): (o: DonenessOption)
    ensures o in DonenessOptions
    ensures (exists i :: 0 <= i < |DonenessOptions| && DonenessOptions[i].id == id) ==> o.id == id
    ensures (forall i :: 0 <= i < |DonenessOptions| ==> DonenessOptions[i].id != id) ==> o == DonenessOptions[0]
  {
    match Find(DonenessOptions, id)
    case Some(k) => DonenessOptions[k]
    case None => DonenessOptions[0]
  }

  /** Every row is found by its own id: the lookup is unambiguous. */
  lemma LookupEveryRow(i: nat)
    requires i < |DonenessOptions|
    ensures SelectedOption(DonenessOptions[i].id) == DonenessOptions[i]
  {
    TableFacts();
    var k := Find(DonenessOptions, DonenessOptions[i].id);
    assert k.Some?;
    assert k.value == i;
  }

  /** Every selection, known or not, cooks for one of the table's times. */
  lemma SelectedTime(id: string)
    ensures 240 <= SelectedOption(id).time <= 480
  {
    TableFacts();
  }

  // ---------------------------------------------------------------------
  // The session flags and their handlers.

  datatype Session = Session(
    selectedDoneness: string,
    isRunning: bool,
    isComplete: bool,
    showFlip: bool,
    flipped: bool,
    cookingStarted: bool)

  /** The initial values of the six state hooks. */
  const InitialSession: Session := Session(DonenessOptions[1].id, false, false, false, false, false)

  /** What the user and the mounted components can trigger. */
  datatype Action =
    | StartCooking            // the start button
    | TimerComplete           // the Timer's onComplete
    | TimerFlip               // the Timer's onFlip
    | FlipAnimationEnd        // the notification's onAnimationEnd
    | Reset                   // the restart button
    | SelectDoneness(id: string)  // the picker's onSelect

  /** The start button is rendered. */
  predicate StartOffered(s: Session) { !s.isRunning && !s.isComplete }

  /** The restart button is rendered. */
  predicate ResetOffered(s: Session) { s.isComplete }

  /** The Timer, source of the flip and completion callbacks, is mounted. */
  predicate TimerMounted(s: Session) { s.isRunning && !s.isComplete }

  /** The picker accepts pointer input: it is not made
      `pointer-events-none`. The picker stays rendered either way and its
      `onSelect` has no guard, so keyboard input reaches it at any time. */
  predicate PickerActive(s: Session) { !(s.isRunning || s.isComplete) }

  /** When the page can deliver each action. The notification calls back
      only after it was shown; a selection is always possible. */
  predicate Enabled(s: Session, a: Action)
    ensures Inv(s) && Enabled(s, a) && a.StartCooking? ==> !s.cookingStarted
    ensures Inv(s) && Enabled(s, a) && (a.TimerFlip? || a.TimerComplete?) ==> s.cookingStarted && !s.isComplete
    ensures Inv(s) && Enabled(s, a) && a.Reset? ==> s.cookingStarted && !s.isRunning
  {
    match a
    case StartCooking => StartOffered(s)
    case TimerComplete => TimerMounted(s)
    case TimerFlip => TimerMounted(s)
    case FlipAnimationEnd => s.showFlip
    case Reset => ResetOffered(s)
    case SelectDoneness(_) => true
  }

  /** The state setters each handler calls. Field by field: only a
      selection changes the selection; only the flip and the animation end
      touch the notification; the flip toggles `flipped`, start and restart
      clear it; the phase flags change only on start, completion and
      restart. */
  function Apply(s: Session, a: Action): (r: Session)
    ensures r.selectedDoneness == (if a.SelectDoneness? then a.id else s.selectedDoneness)
    ensures r.showFlip == (if a.TimerFlip? then true else if a.FlipAnimationEnd? then false else s.showFlip)
    ensures r.flipped == (if a.TimerFlip? then !s.flipped else if a.StartCooking? || a.Reset? then false else s.flipped)
    ensures a.StartCooking? ==> r.isRunning && !r.isComplete && r.cookingStarted
    ensures a.TimerComplete? ==> !r.isRunning && r.isComplete && r.cookingStarted == s.cookingStarted
    ensures a.Reset? ==> !r.isRunning && !r.isComplete && !r.cookingStarted
    ensures a.TimerFlip? || a.FlipAnimationEnd? || a.SelectDoneness? ==>
      r.isRunning == s.isRunning && r.isComplete == s.isComplete && r.cookingStarted == s.cookingStarted
  {
    match a
    case StartCooking => s.(isRunning := true, isComplete := false, flipped := false, cookingStarted := true)
    case TimerComplete => s.(isRunning := false, isComplete := true)
    case TimerFlip => s.(showFlip := true, flipped := !s.flipped)
    case FlipAnimationEnd => s.(showFlip := false)
    case Reset => s.(isRunning := false, isComplete := false, flipped := false, cookingStarted := false)
    case SelectDoneness(id) => s.(selectedDoneness := id)
  }

  /** Performs the actions in order; None if one is not available when its
      turn comes. */
  function Perform(s: Session, actions: seq<Action>): Option<Session>
    decreases |actions|
  {
    if actions == [] then Some(s)
    else if !Enabled(s, actions[0]) then None
    else Perform(Apply(s, actions[0]), actions[1..])
  }

  /** What holds of every session the page can reach: never running and
      complete at once; a cook has started exactly when it runs or is done;
      the steak is shown flipped only during or after a cook. */
  predicate Inv(s: Session) {
    && !(s.isRunning && s.isComplete)
    && (s.cookingStarted <==> s.isRunning || s.isComplete)
    && (!s.cookingStarted ==> !s.flipped)
  }

  lemma InitialSessionFacts()
    ensures InitialSession.selectedDoneness == "medium-rare"
    ensures SelectedOption(InitialSession.selectedDoneness) == DonenessOptions[1]
    ensures Inv(InitialSession)
  {
    LookupEveryRow(1);
  }

  /** Every available action keeps the invariant. */
  lemma ApplyKeepsInv(s: Session, a: Action)
    requires Inv(s) && Enabled(s, a)
    ensures Inv(Apply(s, a))
  {
  }

  /** The invariant holds after any sequence of available actions. */
  lemma {:induction false} PerformKeepsInv(s: Session, actions: seq<Action>)
    requires Inv(s)
    ensures Perform(s, actions).Some? ==> Inv(Perform(s, actions).value)
    decreases |actions|
  {
    if actions != [] && Enabled(s, actions[0]) {
      ApplyKeepsInv(s, actions[0]);
      PerformKeepsInv(Apply(s, actions[0]), actions[1..]);
    }
  }

  /** From the initial page, no sequence of actions makes the page running
      and complete at once. */
  lemma NeverRunningAndComplete(actions: seq<Action>)
    ensures Perform(InitialSession, actions).Some? ==>
      !(Perform(InitialSession, actions).value.isRunning && Perform(InitialSession, actions).value.isComplete)
  {
    InitialSessionFacts();
    PerformKeepsInv(InitialSession, actions);
  }

  /** The actions pointer input alone can deliver: the picker takes a
      selection only while it is active. */
  predicate PointerEnabled(s: Session, a: Action) {
    Enabled(s, a) && (a.SelectDoneness? ==> PickerActive(s))
  }

  /** With pointer input only, nothing changes the selection while the
      Timer is mounted, so its `totalTime` prop stays put for the whole
      cook; only a selection changes it at all. */
  lemma SelectionFixedWhileCooking(s: Session, a: Action)
    requires Inv(s) && TimerMounted(s) && PointerEnabled(s, a)
    ensures Apply(s, a).selectedDoneness == s.selectedDoneness
  {
  }

  /** A keyboard selection while the Timer is mounted goes through: the page
      keeps cooking, and the Timer's `totalTime` prop changes (here from 300
      to 240 seconds). */
  lemma SelectionDuringCook(s: Session)
    requires Inv(s) && TimerMounted(s) && s.selectedDoneness == "medium-rare"
    ensures Enabled(s, SelectDoneness("rare")) && !PointerEnabled(s, SelectDoneness("rare"))
    ensures var s1 := Apply(s, SelectDoneness("rare"));
      && Inv(s1) && TimerMounted(s1)
      && SelectedOption(s.selectedDoneness).time == 300
      && SelectedOption(s1.selectedDoneness).time == 240
  {
    LookupEveryRow(0);
    LookupEveryRow(1);
  }

  /** Two flips restore `flipped`: the handler toggles, it does not set. */
  lemma FlipTwice(s: Session)
    ensures Apply(Apply(s, TimerFlip), TimerFlip).flipped == s.flipped
    ensures Apply(Apply(s, TimerFlip), TimerFlip).showFlip
  {
  }

  /** The heading the page shows names the phase whose action it offers. */
  lemma HeadingMatchesGuards(s: Session)
    requires Inv(s)
    ensures var p := CookingInstructions.Instructions(s.isRunning, s.isComplete, SelectedOption(s.selectedDoneness).labelText);
      && (p.heading == CookingInstructions.PreparationHeading <==> StartOffered(s))
      && (p.heading == CookingInstructions.CookingHeading <==> TimerMounted(s))
      && (p.heading == CookingInstructions.DoneHeading <==> ResetOffered(s))
  {
    CookingInstructions.HeadingsDistinct();
  }

  // ---------------------------------------------------------------------
  // The page together with the Timer it mounts.

  /** The page handler each Timer callback is wired to. */
  function Handler(sig: Timer.Signal): Action {
    match sig
    case Flip => TimerFlip
    case Complete => TimerComplete
  }

  /** The page actions a run of Timer callbacks delivers, in order. */
  function Handlers(sigs: seq<Timer.Signal>): (acts: seq<Action>)
    ensures |acts| == |sigs|
    ensures forall i :: 0 <= i < |sigs| ==> acts[i] == Handler(sigs[i])
  {
    if sigs == [] then [] else [Handler(sigs[0])] + Handlers(sigs[1..])
  }

  /** Performing a non-empty sequence is performing its first action, then
      the rest. */
  lemma PerformCons(s: Session, a: Action, rest: seq<Action>)
    ensures Perform(s, [a] + rest) == if Enabled(s, a) then Perform(Apply(s, a), rest) else None
  {
    assert ([a] + rest)[1..] == rest;
  }

  /** The page's side of a cook: start, flip, complete, then restart. */
  lemma CookActions(s: Session)
    requires Inv(s) && StartOffered(s)
    ensures Perform(s, [StartCooking, TimerFlip, TimerComplete])
         == Some(Session(s.selectedDoneness, false, true, true, true, true))
    ensures Perform(s, [StartCooking, TimerFlip, TimerComplete, Reset])
         == Some(Session(s.selectedDoneness, false, false, true, false, false))
  {
    var s1 := Apply(s, StartCooking);
    var s2 := Apply(s1, TimerFlip);
    var s3 := Apply(s2, TimerComplete);
    PerformCons(s3, Reset, []);
    PerformCons(s2, TimerComplete, [Reset]);
    PerformCons(s2, TimerComplete, []);
    PerformCons(s1, TimerFlip, [TimerComplete, Reset]);
    PerformCons(s1, TimerFlip, [TimerComplete]);
    PerformCons(s, StartCooking, [TimerFlip, TimerComplete, Reset]);
    PerformCons(s, StartCooking, [TimerFlip, TimerComplete]);
  }

  /** The callbacks a whole Timer session makes: one flip, then completion. */
  lemma SessionHandlers(T: int)
    requires T >= 1
    ensures Handlers(Timer.Signals(T, Timer.Initial(T, true), T)) == [TimerFlip, TimerComplete]
  {
    Timer.WholeSession(T);
    assert Handlers([Timer.Flip, Timer.Complete]) == [TimerFlip] + Handlers([Timer.Complete]);
  }

  /** A whole cook: pressing start mounts a Timer with the selected
      option's time; its ticks fire flip then completion; afterwards the
      page is complete, shows the steak flipped once and offers restart,
      with the selection unchanged; restart returns the flags to rest. */
  lemma WholeCook(s: Session)
    requires Inv(s) && StartOffered(s)
    ensures var T := SelectedOption(s.selectedDoneness).time;
      var cook := [StartCooking] + Handlers(Timer.Signals(T, Timer.Initial(T, true), T));
      && Perform(s, cook) == Some(Session(s.selectedDoneness, false, true, true, true, true))
      && Perform(s, cook + [Reset]) == Some(Session(s.selectedDoneness, false, false, true, false, false))
  {
    SelectedTime(s.selectedDoneness);
    CookFor(s, SelectedOption(s.selectedDoneness).time);
  }

  /** `WholeCook` for a Timer of any positive duration. */
  lemma CookFor(s: Session, T: int)
    requires Inv(s) && StartOffered(s) && T >= 1
    ensures Perform(s, [StartCooking] + Handlers(Timer.Signals(T, Timer.Initial(T, true), T)))
         == Some(Session(s.selectedDoneness, false, true, true, true, true))
    ensures Perform(s, [StartCooking] + Handlers(Timer.Signals(T, Timer.Initial(T, true), T)) + [Reset])
         == Some(Session(s.selectedDoneness, false, false, true, false, false))
  {
    SessionHandlers(T);
    var cook := [StartCooking] + Handlers(Timer.Signals(T, Timer.Initial(T, true), T));
    assert cook == [StartCooking, TimerFlip, TimerComplete];
    assert cook + [Reset] == [StartCooking, TimerFlip, TimerComplete, Reset];
    CookActions(s);
  }

  /** A keyboard selection after the flip, then a second flip: the toggle
      shows the steak unflipped when the cook completes. The mounted Timer
      delivers that second flip only when the selection changes its
      `totalTime`, which restarts it; the same time changes nothing. */
  lemma ReselectAfterFlip(s: Session, id: string)
    requires Inv(s) && StartOffered(s)
    ensures Perform(s, [StartCooking, TimerFlip, SelectDoneness(id), TimerFlip, TimerComplete])
         == Some(Session(id, false, true, true, false, true))
  {
    var s1 := Apply(s, StartCooking);
    var s2 := Apply(s1, TimerFlip);
    var s3 := Apply(s2, SelectDoneness(id));
    var s4 := Apply(s3, TimerFlip);
    var s5 := Apply(s4, TimerComplete);
    PerformCons(s4, TimerComplete, []);
    PerformCons(s3, TimerFlip, [TimerComplete]);
    PerformCons(s2, SelectDoneness(id), [TimerFlip, TimerComplete]);
    PerformCons(s1, TimerFlip, [SelectDoneness(id), TimerFlip, TimerComplete]);
    PerformCons(s, StartCooking, [TimerFlip, SelectDoneness(id), TimerFlip, TimerComplete]);
  }

  // ---------------------------------------------------------------------
  // The page component.

  class Page {
    var selectedDoneness: string
    var isRunning: bool
    var isComplete: bool
    var showFlip: bool
    var flipped: bool
    var cookingStarted: bool

    function State(): Session
      reads this
    {
      Session(selectedDoneness, isRunning, isComplete, showFlip, flipped, cookingStarted)
    }

    /** The six state hooks with their initial values. */
    constructor ()
      ensures State() == InitialSession
      ensures Inv(State())
    {
      selectedDoneness := DonenessOptions[1].id;
      isRunning := false;
      isComplete := false;
      showFlip := false;
      flipped := false;
      cookingStarted := false;
    }

    /** `selectedOption`, the row the page cooks by. */
    function Selected(): (o: DonenessOption)
      reads this
      ensures o in DonenessOptions
      ensures (exists i :: 0 <= i < |DonenessOptions| && DonenessOptions[i].id == selectedDoneness) ==> o.id == selectedDoneness
      ensures (forall i :: 0 <= i < |DonenessOptions| ==> DonenessOptions[i].id != selectedDoneness) ==> o == DonenessOptions[0]
    {
      SelectedOption(selectedDoneness)
    }

    method HandleStartCooking()
      requires Inv(State()) && StartOffered(State())
      modifies this
      ensures isRunning && !isComplete && !flipped && cookingStarted
      ensures showFlip == old(showFlip) && selectedDoneness == old(selectedDoneness)
      ensures State() == Apply(old(State()), StartCooking) && Inv(State())
    {
      isRunning := true;
      isComplete := false;
      flipped := false;
      cookingStarted := true;
    }

    method HandleComplete()
      requires Inv(State()) && TimerMounted(State())
      modifies this
      ensures !isRunning && isComplete
      ensures flipped == old(flipped) && cookingStarted == old(cookingStarted)
      ensures showFlip == old(showFlip) && selectedDoneness == old(selectedDoneness)
      ensures State() == Apply(old(State()), TimerComplete) && Inv(State())
    {
      isRunning := false;
      isComplete := true;
    }

    method HandleFlip()
      requires Inv(State()) && TimerMounted(State())
      modifies this
      ensures showFlip && flipped == !old(flipped)
      ensures isRunning == old(isRunning) && isComplete == old(isComplete)
      ensures cookingStarted == old(cookingStarted) && selectedDoneness == old(selectedDoneness)
      ensures State() == Apply(old(State()), TimerFlip) && Inv(State())
    {
      showFlip := true;
      flipped := !flipped;
    }

    method HandleFlipAnimationEnd()
      requires Inv(State()) && showFlip
      modifies this
      ensures !showFlip
      ensures State() == Apply(old(State()), FlipAnimationEnd) && Inv(State())
    {
      showFlip := false;
    }

    method HandleReset()
      requires Inv(State()) && ResetOffered(State())
      modifies this
      ensures !isRunning && !isComplete && !flipped && !cookingStarted
      ensures showFlip == old(showFlip) && selectedDoneness == old(selectedDoneness)
      ensures State() == Apply(old(State()), Reset) && Inv(State())
    {
      isRunning := false;
      isComplete := false;
      flipped := false;
      cookingStarted := false;
    }

    /** The picker's `onSelect`, which is `setSelectedDoneness`, with no
        guard of its own. */
    method HandleSelect(id: string)
      requires Inv(State())
      modifies this
      ensures selectedDoneness == id
      ensures State() == Apply(old(State()), SelectDoneness(id)) && Inv(State())
    {
      selectedDoneness := id;
    }
  }
}
