/** `BasicVacuumWorld`: the two-square vacuum world of AIMA, page 38.
    The agent stands on square A or B; each square is dirty or clean.
    The pure functions here are the specification; the class of the same
    name holds the state the simulator updates in place. */
module World {
  import opened Exceptions
  import opened DirtStrings

  /** The two squares, in the order `BasicVacuumWorld.locations` lists them. */
  datatype Location = A | B

  /** The location names the constructor accepts. */
  function LocationName(l: Location): string {
    match l
    case A => "A"
    case B => "B"
  }

  function ParseLocation(name: string): (r: Option<Location>)
    ensures r.Some? <==> name == "A" || name == "B"
  {
    if name == "A" then Some(A) else if name == "B" then Some(B) else None
  }

  /** Parsing inverts naming, in both directions. */
  lemma LocationNameRoundTrip(l: Location, name: string)
    ensures ParseLocation(LocationName(l)) == Some(l)
    ensures ParseLocation(name) == Some(l) ==> LocationName(l) == name
  {
  }

  function Other(l: Location): (r: Location)
    ensures r != l
  {
    if l == A then B else A
  }

  /** The agent's actions, as the strings the agent returns. */
  const Suck: string := "SUCK"
  const Right: string := "RIGHT"
  const Left: string := "LEFT"
  const Actions: seq<string> := [Left, Right, Suck]

  /** The full state (`state` property): the agent's location and one dirt
      flag per location. */
  datatype WorldState = WorldState(agentLocation: Location, dirtStatus: map<Location, bool>)

  /** What the agent senses (`observable_state` property). */
  datatype Percept = Percept(agentLocation: Location, isDirty: bool)

  /** A constructed world has a dirt flag for exactly the two locations. */
  predicate WellFormed(s: WorldState) {
    forall l: Location :: l in s.dirtStatus
  }

  /** Well-formed means exactly: both A and B carry a flag. */
  lemma WellFormedBothKeys(s: WorldState)
    ensures WellFormed(s) <==> A in s.dirtStatus && B in s.dirtStatus
  {
    if A in s.dirtStatus && B in s.dirtStatus {
      forall l: Location ensures l in s.dirtStatus {
        if l == A {} else {}
      }
    }
  }

  /** `BasicVacuumWorld.__init__` without the object: checks its two
      arguments in the source's order and converts the dirt strings, the
      first for A and the second for B. */
  function InitState(agentLocation: seq<string>, dirtStatus: seq<string>): (r: Result<WorldState>)
    ensures |agentLocation| != 1 ==> r == Failure(ValueError(StrList(agentLocation)))
    ensures |agentLocation| == 1 && ParseLocation(agentLocation[0]).None? ==>
              r == Failure(ValueError(Str(agentLocation[0])))
    ensures |agentLocation| == 1 && ParseLocation(agentLocation[0]).Some? && |dirtStatus| != 2 ==>
              r == Failure(ValueError(StrList(dirtStatus)))
    ensures r.Success? <==>
              && |agentLocation| == 1 && ParseLocation(agentLocation[0]).Some?
              && |dirtStatus| == 2
              && ConvertToDirtStatus(dirtStatus[0]).Success?
              && ConvertToDirtStatus(dirtStatus[1]).Success?
    ensures r.Success? ==>
              && WellFormed(r.value)
              && LocationName(r.value.agentLocation) == agentLocation[0]
              && r.value.dirtStatus[A] == ConvertToDirtStatus(dirtStatus[0]).value
              && r.value.dirtStatus[B] == ConvertToDirtStatus(dirtStatus[1]).value
    ensures r.Failure? && |agentLocation| == 1 && ParseLocation(agentLocation[0]).Some? && |dirtStatus| == 2 ==>
              r.error == (if ConvertToDirtStatus(dirtStatus[0]).Failure?
                          then ConvertToDirtStatus(dirtStatus[0]).error
                          else ConvertToDirtStatus(dirtStatus[1]).error)
  {
    if |agentLocation| != 1 then Failure(ValueError(StrList(agentLocation)))
    else
      match ParseLocation(agentLocation[0])
      case None => Failure(ValueError(Str(agentLocation[0])))
      case Some(location) =>
        if |dirtStatus| != 2 then Failure(ValueError(StrList(dirtStatus)))
        else
          match ConvertToDirtStatus(dirtStatus[0])
          case Failure(e) => Failure(e)
          case Success(dirtyA) =>
            match ConvertToDirtStatus(dirtStatus[1])
            case Failure(e) => Failure(e)
            case Success(dirtyB) =>
              var s := WorldState(location, map[A := dirtyA, B := dirtyB]);
              WellFormedBothKeys(s);
              Success(s)
  }

  /** The constructor's default arguments, `('A',)` and `('t', 't')`, give a
      world with the agent on A and both squares dirty. */
  lemma DefaultInit()
    ensures InitState(["A"], ["t", "t"]) == Success(WorldState(A, map[A := true, B := true]))
  {
    assert ToLower("t") == "t";
  }

  /** `observable_state`: the agent's location and the dirt flag of that
      location. */
  function Observe(s: WorldState): (p: Percept)
    requires WellFormed(s)
  {
    Percept(s.agentLocation, s.dirtStatus[s.agentLocation])
  }

  /** `BasicVacuumWorld.update`: SUCK cleans the current square, RIGHT moves
      to B, LEFT moves to A; any other action raises ValueError(action). */
  function Step(s: WorldState, action: string): (r: Result<WorldState>)
    requires WellFormed(s)
    ensures r.Success? <==> action in Actions
    ensures r.Failure? ==> r.error == ValueError(Str(action))
    ensures r.Success? ==> WellFormed(r.value)
  {
    if action == Suck then Success(s.(dirtStatus := s.dirtStatus[s.agentLocation := false]))
    else if action == Right then Success(s.(agentLocation := B))
    else if action == Left then Success(s.(agentLocation := A))
    else Failure(ValueError(Str(action)))
  }

  /** SUCK cleans the agent's square and changes nothing else. */
  lemma SuckCleansCurrentSquare(s: WorldState)
    requires WellFormed(s)
    ensures Step(s, Suck).Success?
    ensures !Step(s, Suck).value.dirtStatus[s.agentLocation]
    ensures Step(s, Suck).value.dirtStatus[Other(s.agentLocation)] == s.dirtStatus[Other(s.agentLocation)]
    ensures Step(s, Suck).value.agentLocation == s.agentLocation
    ensures !Observe(Step(s, Suck).value).isDirty
  {
  }

  /** Sucking twice is sucking once. */
  lemma SuckIdempotent(s: WorldState)
    requires WellFormed(s)
    ensures Step(Step(s, Suck).value, Suck) == Step(s, Suck)
  {
    var t := Step(s, Suck).value;
    assert t.dirtStatus[t.agentLocation := false] == t.dirtStatus;
  }

  /** RIGHT puts the agent on B and LEFT on A; neither touches any dirt, and
      repeating either changes nothing more. */
  lemma MovesKeepDirt(s: WorldState)
    requires WellFormed(s)
    ensures Step(s, Right) == Success(WorldState(B, s.dirtStatus))
    ensures Step(s, Left) == Success(WorldState(A, s.dirtStatus))
    ensures Step(Step(s, Right).value, Right) == Step(s, Right)
    ensures Step(Step(s, Left).value, Left) == Step(s, Left)
  {
  }

  /** Clean squares stay clean: no action makes any square dirty. */
  lemma CleanStaysClean(s: WorldState, action: string, l: Location)
    requires WellFormed(s)
    requires !s.dirtStatus[l]
    ensures Step(s, action).Success? ==> !Step(s, action).value.dirtStatus[l]
  {
  }

  /** A successful action changes only the agent's location or only the
      flags, and never the flag of the square the agent is not on. */
  lemma StepChangesOneThing(s: WorldState, action: string)
    requires WellFormed(s)
    requires Step(s, action).Success?
    ensures var t := Step(s, action).value;
            t.agentLocation == s.agentLocation || t.dirtStatus == s.dirtStatus
    ensures var t := Step(s, action).value;
            t.dirtStatus[Other(s.agentLocation)] == s.dirtStatus[Other(s.agentLocation)]
  {
  }

  /** The percept after a move reports the flag of the square moved to. */
  lemma ObserveAfterMove(s: WorldState)
    requires WellFormed(s)
    ensures Observe(Step(s, Right).value) == Percept(B, s.dirtStatus[B])
    ensures Observe(Step(s, Left).value) == Percept(A, s.dirtStatus[A])
  {
  }

  /** The environment object. `dirtStatus` is the dictionary the source
      updates in place; here the field is reassigned. */
  class BasicVacuumWorld {
    var agentLocation: Location
    var dirtStatus: map<Location, bool>

    ghost predicate Valid()
      reads this
    {
      WellFormed(State())
    }

    /** The `state` property. */
    function State(): WorldState
      reads this
    {
      WorldState(agentLocation, dirtStatus)
    }

    /** The `observable_state` property. */
    function ObservableState(): (p: Percept)
      reads this
      requires Valid()
      ensures p == Observe(State())
    {
      Percept(agentLocation, dirtStatus[agentLocation])
    }

    constructor (s: WorldState)
      requires WellFormed(s)
      ensures Valid() && State() == s
    {
      agentLocation := s.agentLocation;
      dirtStatus := s.dirtStatus;
    }

    /** `BasicVacuumWorld(agent_location, dirt_status)`: either raises the
        ValueError `InitState` gives, or yields a fresh world in its state. */
    static method New(agentLocation: seq<string>, dirtStatus: seq<string>) returns (r: Result<BasicVacuumWorld>)
      ensures r.Failure? <==> InitState(agentLocation, dirtStatus).Failure?
      ensures r.Failure? ==> r.error == InitState(agentLocation, dirtStatus).error
      ensures r.Success? ==> fresh(r.value) && r.value.Valid()
      ensures r.Success? ==> r.value.State() == InitState(agentLocation, dirtStatus).value
    {
      match InitState(agentLocation, dirtStatus)
      case Failure(e) =>
        r := Failure(e);
      case Success(s) =>
        var world := new BasicVacuumWorld(s);
        r := Success(world);
    }

    /** `update(action)`: the new state is `Step` of the old one; on a
        rejected action it returns the ValueError and changes nothing. */
    method Update(action: string) returns (err: Option<Exception>)
      requires Valid()
      modifies this
      ensures Valid()
      ensures Step(old(State()), action).Success? ==>
                err == None && State() == Step(old(State()), action).value
      ensures Step(old(State()), action).Failure? ==>
                err == Some(Step(old(State()), action).error) && State() == old(State())
    {
      err := None;
      if action == Suck {
        dirtStatus := dirtStatus[agentLocation := false];
      } else if action == Right {
        agentLocation := B;
      } else if action == Left {
        agentLocation := A;
      } else {
        err := Some(ValueError(Str(action)));
      }
    }
  }
}
