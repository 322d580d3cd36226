/**
 * The USP_VIREL state machine of USP-VIREL.py. An unknown domain or token
 * raises before any guard is looked at, HaltPrecedence refuses to push the
 * lamport counter past its bound before it changes anything, and TypeOK asks
 * for exactly one vote entry per configured domain. TypeOK is therefore an
 * invariant of every machine; SafeState is not checked at construction, so a
 * machine built from overridden variables can violate it, and the actions
 * that re-check it then raise.
 */
module Reference {
  import opened Protocol

  /** The exceptions USP-VIREL.py raises. */
  datatype Error =
    | UnknownDomain(domain: string)  // ValueError from cast_vote
    | UnknownToken(token: string)    // ValueError from cast_vote
    | CounterOverflow                // AssertionError: LamportMax would be exceeded
    | TypeOkViolated                 // AssertionError from _check_type_ok
    | SafeStateViolated              // AssertionError from _check_safe_state

  /**
   * TypeOK: counters within their bounds, exactly one vote entry per
   * configured domain, only configured tokens, a natural timer. (The state
   * is one of the two phases by its type.)
   */
  predicate TypeOK(cfg: Config, s: Vars)
    ensures TypeOK(cfg, s) ==> DomainsPresent(cfg.domains, s.votes)
  {
    && 0 <= s.epoch <= cfg.epochMax
    && 0 <= s.lamport <= cfg.lamportMax
    && s.votes.Keys == (set d | d in cfg.domains)
    && VotesConfigured(cfg.tokens, s.votes)
    && s.timer >= 0
  }

  /** assert_invariants: TypeOK first, then SafeState; the first that fails raises. */
  function InvariantCheck(cfg: Config, s: Vars): (o: Outcome<Error>)
    ensures o == Pass <==> TypeOK(cfg, s) && SafeState(cfg, s)
    ensures o == Fail(TypeOkViolated) <==> !TypeOK(cfg, s)
    ensures o == Fail(SafeStateViolated) <==> TypeOK(cfg, s) && !SafeState(cfg, s)
  {
    if !TypeOK(cfg, s) then Fail(TypeOkViolated)
    else if !SafeState(cfg, s) then Fail(SafeStateViolated)
    else Pass
  }

  /** A machine from which no action can raise anything but a caller error. */
  predicate Sound(cfg: Config, s: Vars)
  {
    TypeOK(cfg, s) && SafeState(cfg, s) && (s.state == OPERATIONAL ==> s.lamport < cfg.lamportMax)
  }

  /**
   * CastVote: unknown domain, then unknown token, raise whatever the state;
   * then a SAFE_ON machine or a full domain refuses; otherwise the token is
   * appended to that domain's sequence and nothing else changes.
   */
  function CastVoteAction(cfg: Config, s: Vars, d: string, t: string): (e: Effect<Result<bool, Error>>)
    requires TypeOK(cfg, s)
    ensures TypeOK(cfg, e.post) && (SafeState(cfg, s) ==> SafeState(cfg, e.post))
    ensures e.reply == Err(UnknownDomain(d)) <==> d !in cfg.domains
    ensures e.reply == Err(UnknownToken(t)) <==> d in cfg.domains && t !in cfg.tokens
    ensures e.reply == Ok(false) <==>
              d in cfg.domains && t in cfg.tokens &&
              (s.state != OPERATIONAL || |s.votes[d]| >= Capacity)
    ensures e.reply == Ok(true) <==>
              d in cfg.domains && t in cfg.tokens &&
              s.state == OPERATIONAL && |s.votes[d]| < Capacity
    ensures e.reply != Ok(true) ==> e.post == s
    ensures e.reply == Ok(true) ==>
              && e.post.votes.Keys == s.votes.Keys
              && e.post.votes[d] == s.votes[d] + [t]
              && (forall x :: x in s.votes && x != d ==> e.post.votes[x] == s.votes[x])
              && e.post.(votes := s.votes) == s
              && SafeState(cfg, e.post)
  {
    if d !in cfg.domains then Effect(Err(UnknownDomain(d)), s)
    else if t !in cfg.tokens then Effect(Err(UnknownToken(t)), s)
    else if s.state != OPERATIONAL then Effect(Ok(false), s)
    else if |s.votes[d]| >= Capacity then Effect(Ok(false), s)
    else Effect(Ok(true), s.(votes := s.votes[d := s.votes[d] + [t]]))
  }

  /**
   * HaltPrecedence: from OPERATIONAL, scan the domains in configured order
   * for one at capacity that holds a HALT vote; on the first, raise if the
   * lamport counter is at its bound, else move to SAFE_ON and count the
   * transition. Otherwise refuse and change nothing.
   */
  function HaltPrecedenceAction(cfg: Config, s: Vars): (e: Effect<Result<bool, Error>>)
    requires TypeOK(cfg, s)
    ensures TypeOK(cfg, e.post) && (SafeState(cfg, s) ==> SafeState(cfg, e.post))
    ensures e.reply == Ok(true) <==>
              s.state == OPERATIONAL && HaltEnabled(cfg.domains, s.votes) && s.lamport < cfg.lamportMax
    ensures e.reply == Err(CounterOverflow) <==>
              s.state == OPERATIONAL && HaltEnabled(cfg.domains, s.votes) && s.lamport >= cfg.lamportMax
    ensures e.reply == Ok(false) <==> !(s.state == OPERATIONAL && HaltEnabled(cfg.domains, s.votes))
    ensures e.reply == Ok(true) ==>
              e.post == s.(state := SAFE_ON, lamport := s.lamport + 1) && SafeState(cfg, e.post)
    ensures e.reply != Ok(true) ==> e.post == s
  {
    if s.state != OPERATIONAL then Effect(Ok(false), s)
    else
      ScanForQuorum(cfg.domains, s.votes);
      match ScanDomains(cfg.domains, s.votes, HaltQuorum)
      case Found(_) =>
        if s.lamport >= cfg.lamportMax then Effect(Err(CounterOverflow), s)
        else Effect(Ok(true), s.(state := SAFE_ON, lamport := s.lamport + 1))
      case _ => Effect(Ok(false), s)
  }

  /** SafeOnStaysSafe: enabled only in SAFE_ON, where it re-checks the invariants. */
  function SafeOnStaysSafeAction(cfg: Config, s: Vars): (e: Effect<Result<bool, Error>>)
    requires TypeOK(cfg, s)
    ensures e.post == s
    ensures e.reply == Ok(true) <==> s.state == SAFE_ON && SafeState(cfg, s)
    ensures e.reply == Ok(false) <==> s.state != SAFE_ON
    ensures e.reply == Err(SafeStateViolated) <==> !SafeState(cfg, s)
  {
    if s.state != SAFE_ON then Effect(Ok(false), s)
    else match InvariantCheck(cfg, s)
      case Pass => Effect(Ok(true), s)
      case Fail(err) => Effect(Err(err), s)
  }

  /** Idle: the stuttering step; changes nothing and re-checks the invariants. */
  function IdleAction(cfg: Config, s: Vars): (e: Effect<Outcome<Error>>)
    requires TypeOK(cfg, s)
    ensures e.post == s
    ensures e.reply == Pass <==> SafeState(cfg, s)
    ensures e.reply.Fail? ==> e.reply.error == SafeStateViolated
  {
    Effect(InvariantCheck(cfg, s), s)
  }

  /**
   * auto_step: HaltPrecedence when it is enabled; otherwise SafeOnStaysSafe
   * in SAFE_ON and Idle in OPERATIONAL, neither of which changes anything.
   */
  function AutoStepAction(cfg: Config, s: Vars): (e: Effect<Outcome<Error>>)
    requires TypeOK(cfg, s)
    ensures TypeOK(cfg, e.post)
    ensures s.state == OPERATIONAL && HaltEnabled(cfg.domains, s.votes) && s.lamport < cfg.lamportMax ==>
              e.reply == Pass && e.post == s.(state := SAFE_ON, lamport := s.lamport + 1)
    ensures !(s.state == OPERATIONAL && HaltEnabled(cfg.domains, s.votes) && s.lamport < cfg.lamportMax) ==>
              e.post == s
    ensures e.reply == Fail(CounterOverflow) <==>
              s.state == OPERATIONAL && HaltEnabled(cfg.domains, s.votes) && s.lamport >= cfg.lamportMax
    ensures e.reply == Fail(SafeStateViolated) <==> !SafeState(cfg, s)
    ensures e.reply.Pass? || e.reply == Fail(CounterOverflow) || e.reply == Fail(SafeStateViolated)
  {
    var fired := HaltPrecedenceAction(cfg, s);
    if fired.reply.Err? then Effect(Fail(fired.reply.error), fired.post)
    else if fired.reply.value then Effect(Pass, fired.post)
    else if s.state == SAFE_ON then
      var stays := SafeOnStaysSafeAction(cfg, s);
      Effect(if stays.reply.Err? then Fail(stays.reply.error) else Pass, stays.post)
    else IdleAction(cfg, s)
  }

  /** The actions a caller can take, for reasoning about sequences of calls. */
  datatype Action =
    | DoCastVote(domain: string, token: string)
    | DoHaltPrecedence
    | DoSafeOnStaysSafe
    | DoIdle
    | DoAutoStep

  /** A caller's mistake, as opposed to a fatal defect of the machine. */
  predicate CallerError(o: Outcome<Error>)
  {
    o.Fail? && (o.error.UnknownDomain? || o.error.UnknownToken?)
  }

  /**
   * One action, its reply reduced to "returned" or "raised". Every action
   * keeps TypeOK and SafeState, leaves a SAFE_ON machine untouched, counts
   * the one OPERATIONAL to SAFE_ON transition in lamport, never touches epoch
   * or the timer, only extends votes, and from a sound machine raises only
   * caller errors.
   */
  function Apply(cfg: Config, s: Vars, a: Action): (e: Effect<Outcome<Error>>)
    requires TypeOK(cfg, s)
    ensures TypeOK(cfg, e.post)
    ensures SafeState(cfg, s) ==> SafeState(cfg, e.post)
    ensures s.state == SAFE_ON ==> e.post == s
    ensures e.post.lamport == s.lamport + (if s.state == OPERATIONAL && e.post.state == SAFE_ON then 1 else 0)
    ensures e.post.epoch == s.epoch && e.post.timer == s.timer
    ensures VotesGrow(s.votes, e.post.votes) && (Bounded(s.votes) ==> Bounded(e.post.votes))
    ensures Sound(cfg, s) ==> Sound(cfg, e.post) && (e.reply.Pass? || CallerError(e.reply))
  {
    match a
    case DoCastVote(d, t) =>
      var e := CastVoteAction(cfg, s, d, t);
      Effect(Raised(e.reply), e.post)
    case DoHaltPrecedence =>
      var e := HaltPrecedenceAction(cfg, s);
      Effect(Raised(e.reply), e.post)
    case DoSafeOnStaysSafe =>
      var e := SafeOnStaysSafeAction(cfg, s);
      Effect(Raised(e.reply), e.post)
    case DoIdle => IdleAction(cfg, s)
    case DoAutoStep => AutoStepAction(cfg, s)
  }

  /** The variables after a sequence of actions; TypeOK holds throughout. */
  function Run(cfg: Config, s: Vars, actions: seq<Action>): (t: Vars)
    requires TypeOK(cfg, s)
    ensures TypeOK(cfg, t)
    decreases |actions|
  {
    if actions == [] then s else Run(cfg, Apply(cfg, s, actions[0]).post, actions[1..])
  }

  /** SAFE_ON is a sink: once there, no sequence of actions changes any variable. */
  lemma {:induction false} SafeOnIsFinal(cfg: Config, s: Vars, actions: seq<Action>)
    requires TypeOK(cfg, s) && s.state == SAFE_ON
    ensures Run(cfg, s, actions) == s
    decreases |actions|
  {
    if actions != [] {
      SafeOnIsFinal(cfg, Apply(cfg, s, actions[0]).post, actions[1..]);
    }
  }

  /** SafeState holds after every sequence of actions that starts from it. */
  lemma {:induction false} RunKeepsSafeState(cfg: Config, s: Vars, actions: seq<Action>)
    requires TypeOK(cfg, s) && SafeState(cfg, s)
    ensures SafeState(cfg, Run(cfg, s, actions))
    decreases |actions|
  {
    if actions != [] {
      RunKeepsSafeState(cfg, Apply(cfg, s, actions[0]).post, actions[1..]);
    }
  }

  /**
   * lamport never decreases, and over any sequence of actions it grows by
   * exactly one when the machine went from OPERATIONAL to SAFE_ON and by
   * nothing otherwise; the state never goes back to OPERATIONAL.
   */
  lemma {:induction false} RunCountsTransition(cfg: Config, s: Vars, actions: seq<Action>)
    requires TypeOK(cfg, s)
    ensures s.state == SAFE_ON ==> Run(cfg, s, actions).state == SAFE_ON
    ensures Run(cfg, s, actions).lamport ==
              s.lamport + (if s.state == OPERATIONAL && Run(cfg, s, actions).state == SAFE_ON then 1 else 0)
    decreases |actions|
  {
    if actions != [] {
      var next := Apply(cfg, s, actions[0]).post;
      RunCountsTransition(cfg, next, actions[1..]);
      if next.state == SAFE_ON {
        SafeOnIsFinal(cfg, next, actions[1..]);
      }
    } else if s.state == SAFE_ON {
      SafeOnIsFinal(cfg, s, actions);
    }
  }

  /**
   * Over any sequence of actions the votes only grow (same domains, each
   * sequence extended at its end), no domain grows past Capacity votes, and
   * epoch and the provisional timer never change.
   */
  lemma {:induction false} RunGrowsVotes(cfg: Config, s: Vars, actions: seq<Action>)
    requires TypeOK(cfg, s)
    ensures VotesGrow(s.votes, Run(cfg, s, actions).votes)
    ensures Bounded(s.votes) ==> Bounded(Run(cfg, s, actions).votes)
    ensures Run(cfg, s, actions).epoch == s.epoch && Run(cfg, s, actions).timer == s.timer
    decreases |actions|
  {
    if actions != [] {
      var next := Apply(cfg, s, actions[0]).post;
      RunGrowsVotes(cfg, next, actions[1..]);
      VotesGrowTransitive(s.votes, next.votes, Run(cfg, next, actions[1..]).votes);
    }
  }

  /**
   * A sound machine stays sound over any sequence of actions, so (by Apply)
   * none of the actions along the way raises anything but a caller error.
   */
  lemma {:induction false} RunStaysSound(cfg: Config, s: Vars, actions: seq<Action>)
    requires Sound(cfg, s)
    ensures Sound(cfg, Run(cfg, s, actions))
    decreases |actions|
  {
    if actions != [] {
      RunStaysSound(cfg, Apply(cfg, s, actions[0]).post, actions[1..]);
    }
  }

  /**
   * Construction without overrides gives every configured domain an empty
   * sequence; it succeeds exactly when both bounds are natural, and the
   * machine it builds is sound when lamport_max is positive.
   */
  lemma DefaultConstruction(cfg: Config)
    ensures Seeded(cfg, Defaults).votes == EmptyVotes(cfg.domains)
    ensures TypeOK(cfg, Seeded(cfg, Defaults)) <==> cfg.epochMax >= 0 && cfg.lamportMax >= 0
    ensures TypeOK(cfg, Seeded(cfg, Defaults)) ==> SafeState(cfg, Seeded(cfg, Defaults))
    ensures TypeOK(cfg, Seeded(cfg, Defaults)) && cfg.lamportMax > 0 ==> Sound(cfg, Seeded(cfg, Defaults))
  {

  }

  /**
   * Construction checks TypeOK only: a machine overridden into SAFE_ON with
   * no votes is built, violates SafeState, and its Idle raises.
   */
  lemma ConstructionSkipsSafeState(cfg: Config)
    requires cfg.epochMax >= 0 && cfg.lamportMax >= 0
    ensures TypeOK(cfg, Seeded(cfg, Defaults.(state := SAFE_ON)))
    ensures !SafeState(cfg, Seeded(cfg, Defaults.(state := SAFE_ON)))
    ensures IdleAction(cfg, Seeded(cfg, Defaults.(state := SAFE_ON))).reply == Fail(SafeStateViolated)
  {

  }

  /**
   * TypeOK does not bound how many votes a domain holds: an overridden vote
   * map with three HALT votes in one domain is accepted, no run brings it
   * back under Capacity, and cast_vote refuses any further vote there.
   */
  lemma OverfullOverrideKept(cfg: Config, actions: seq<Action>)
    requires cfg.domains == ["A"] && Halt in cfg.tokens && cfg.epochMax >= 0 && cfg.lamportMax >= 0
    ensures TypeOK(cfg, Seeded(cfg, Defaults.(votes := map["A" := [Halt, Halt, Halt]])))
    ensures !Bounded(Seeded(cfg, Defaults.(votes := map["A" := [Halt, Halt, Halt]])).votes)
    ensures !Bounded(Run(cfg, Seeded(cfg, Defaults.(votes := map["A" := [Halt, Halt, Halt]])), actions).votes)
    ensures CastVoteAction(cfg, Seeded(cfg, Defaults.(votes := map["A" := [Halt, Halt, Halt]])), "A", Halt).reply == Ok(false)
  {
    var votes: Votes := map["A" := [Halt, Halt, Halt]];
    var none: Votes := map[];
    assert "A" in votes && "A" !in none;
    assert votes != none;
    assert VotesConfigured(cfg.tokens, votes);
    var s := Seeded(cfg, Defaults.(votes := votes));
    RunGrowsVotes(cfg, s, actions);
    var t := Run(cfg, s, actions);
    assert s.votes["A"] <= t.votes["A"];
  }

  /** The machine of USP-VIREL.py: the five protocol variables, updated in place. */
  class UspVirel {
    const cfg: Config
    var state: Phase
    var epoch: int
    var lamport: int
    var quorumVotes: Votes
    var provisionalTimer: int

    /** The protocol variables of this machine, as one value. */
    function View(): Vars
      reads this
    {
      Vars(state, epoch, lamport, quorumVotes, provisionalTimer)
    }

    /** The object invariant: TypeOK, checked at construction and kept by every action. */
    ghost predicate Valid()
      reads this
    {
      TypeOK(cfg, View())
    }

    /** __post_init__ when its TypeOK check passes; SafeState is not checked. */
    constructor (cfg: Config, init: Vars)
      requires TypeOK(cfg, Seeded(cfg, init))
      ensures Valid() && this.cfg == cfg && View() == Seeded(cfg, init)
    {
      this.cfg := cfg;
      var s := Seeded(cfg, init);
      state, epoch, lamport := s.state, s.epoch, s.lamport;
      quorumVotes, provisionalTimer := s.votes, s.timer;
    }

    /** Construction from a configuration and overrides, raising when TypeOK fails. */
    static method Create(cfg: Config, init: Vars) returns (r: Result<UspVirel, Error>)
      ensures r.Ok? <==> TypeOK(cfg, Seeded(cfg, init))
      ensures r.Err? ==> r.error == TypeOkViolated
      ensures r.Ok? ==> fresh(r.value) && r.value.Valid() && r.value.cfg == cfg &&
                        r.value.View() == Seeded(cfg, init)
    {
      if !TypeOK(cfg, Seeded(cfg, init)) {
        return Err(TypeOkViolated);
      }
      var m := new UspVirel(cfg, init);
      return Ok(m);
    }

    /** assert_invariants. */
    method AssertInvariants() returns (o: Outcome<Error>)
      requires Valid()
      ensures o == Pass <==> SafeState(cfg, View())
      ensures o.Fail? ==> o.error == SafeStateViolated
    {
      o := InvariantCheck(cfg, View());
    }

    /** cast_vote. */
    method CastVote(d: string, t: string) returns (r: Result<bool, Error>)
      requires Valid()
      modifies this
      ensures Valid()
      ensures Effect(r, View()) == CastVoteAction(cfg, old(View()), d, t)
    {
      if d !in cfg.domains {
        return Err(UnknownDomain(d));
      }
      if t !in cfg.tokens {
        return Err(UnknownToken(t));
      }
      if state != OPERATIONAL {
        return Ok(false);
      }
      if |quorumVotes[d]| >= Capacity {
        return Ok(false);
      }
      quorumVotes := quorumVotes[d := quorumVotes[d] + [t]];
      return Ok(true);
    }

    /** halt_precedence: the domains are scanned in configured order, stopping at the first match. */
    method HaltPrecedence() returns (r: Result<bool, Error>)
      requires Valid()
      modifies this
      ensures Valid()
      ensures Effect(r, View()) == HaltPrecedenceAction(cfg, old(View()))
    {
      if state != OPERATIONAL {
        return Ok(false);
      }
      ScanForQuorum(cfg.domains, quorumVotes);
      var i := 0;
      while i < |cfg.domains|
        invariant 0 <= i <= |cfg.domains|
        invariant View() == old(View())
        invariant forall j :: 0 <= j < i ==> !HaltQuorum(quorumVotes[cfg.domains[j]])
      {
        var d := cfg.domains[i];
        if |quorumVotes[d]| >= Capacity && HasHalt(quorumVotes[d]) {
          if lamport >= cfg.lamportMax {
            return Err(CounterOverflow);
          }
          state := SAFE_ON;
          lamport := lamport + 1;
          return Ok(true);
        }
        i := i + 1;
      }
      return Ok(false);
    }

    /** safe_on_stays_safe: changes nothing. */
    method SafeOnStaysSafe() returns (r: Result<bool, Error>)
      requires Valid()
      ensures r == SafeOnStaysSafeAction(cfg, View()).reply
    {
      if state != SAFE_ON {
        return Ok(false);
      }
      var o := AssertInvariants();
      r := if o.Pass? then Ok(true) else Err(o.error);
    }

    /** idle: changes nothing. */
    method Idle() returns (o: Outcome<Error>)
      requires Valid()
      ensures o == IdleAction(cfg, View()).reply
    {
      o := AssertInvariants();
    }

    /** auto_step: HaltPrecedence first, else the non-changing action for the current state. */
    method AutoStep() returns (o: Outcome<Error>)
      requires Valid()
      modifies this
      ensures Valid()
      ensures Effect(o, View()) == AutoStepAction(cfg, old(View()))
    {
      var fired := HaltPrecedence();
      if fired.Err? {
        return Fail(fired.error);
      }
      if fired.value {
        return Pass;
      }
      if state == SAFE_ON {
        var stays := SafeOnStaysSafe();
        return if stays.Err? then Fail(stays.error) else Pass;
      }
      o := Idle();
    }
  }
}
