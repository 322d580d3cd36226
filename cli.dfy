/**
 * The USP_VIREL state machine of usp_cli.py. Every caller mistake is a
 * refusal (`false`), and the state guard comes first; HaltPrecedence has no
 * lamport guard, so at the bound it changes the variables and only then fails
 * the TypeOK check; TypeOK does not ask for one vote entry per domain, so a
 * configured domain can lack an entry, and looking it up raises a KeyError.
 * Nothing here is an invariant of every machine: an overflow leaves the
 * machine in SAFE_ON with lamport past its bound.
 */
module Cli {
  import opened Protocol

  /** The exceptions usp_cli.py raises. */
  datatype Error =
    | MissingEntry(domain: string)  // KeyError: a configured domain without an entry in quorum_votes
    | TypeOkViolated                // AssertionError from _check_type_ok
    | SafeStateViolated             // AssertionError from _check_safe_state

  /**
   * The weaker TypeOK of this copy: counters within their bounds and only
   * configured tokens under every key; no check of which domains have
   * entries, and none of the timer beyond its type.
   */
  predicate TypeOK(cfg: Config, s: Vars)
  {
    && 0 <= s.epoch <= cfg.epochMax
    && 0 <= s.lamport <= cfg.lamportMax
    && VotesConfigured(cfg.tokens, s.votes)
  }

  /**
   * assert_invariants: TypeOK, then in SAFE_ON the in-order search for a
   * HALT vote, which raises a KeyError at a missing domain reached before
   * any HALT.
   */
  function InvariantCheck(cfg: Config, s: Vars): (o: Outcome<Error>)
    ensures o == Fail(TypeOkViolated) <==> !TypeOK(cfg, s)
    ensures o == Pass ==> TypeOK(cfg, s) && SafeState(cfg, s)
    ensures DomainsPresent(cfg.domains, s.votes) ==> (o == Pass <==> TypeOK(cfg, s) && SafeState(cfg, s))
    ensures o.Fail? && o.error.MissingEntry? ==>
              s.state == SAFE_ON && o.error.domain in cfg.domains && o.error.domain !in s.votes
    ensures TypeOK(cfg, s) && s.state == OPERATIONAL ==> o == Pass
    ensures TypeOK(cfg, s) && s.state == SAFE_ON ==>
              var r := ScanDomains(cfg.domains, s.votes, HasHalt);
              && (o == Pass <==> r.Found?)
              && (o == Fail(SafeStateViolated) <==> r.Exhausted?)
              && (r.Missing? ==> o == Fail(MissingEntry(cfg.domains[r.at])))
  {
    ScanForHalt(cfg.domains, s.votes);
    if !TypeOK(cfg, s) then Fail(TypeOkViolated)
    else if s.state != SAFE_ON then Pass
    else match ScanDomains(cfg.domains, s.votes, HasHalt)
      case Found(_) => Pass
      case Missing(i) => Fail(MissingEntry(cfg.domains[i]))
      case Exhausted => Fail(SafeStateViolated)
  }

  /**
   * A machine from which no action raises: TypeOK, every configured domain
   * present, SafeState, and room for the lamport increment while OPERATIONAL.
   */
  predicate Sound(cfg: Config, s: Vars)
  {
    && TypeOK(cfg, s)
    && DomainsPresent(cfg.domains, s.votes)
    && SafeState(cfg, s)
    && (s.state == OPERATIONAL ==> s.lamport < cfg.lamportMax)
  }

  /**
   * CastVote: refuse in SAFE_ON, for an unknown domain, for an unknown token
   * (in that order) and for a full domain; a configured domain without an
   * entry raises; otherwise append the token and re-check the invariants.
   */
  function CastVoteAction(cfg: Config, s: Vars, d: string, t: string): (e: Effect<Result<bool, Error>>)
    ensures e.reply == Ok(false) <==>
              s.state != OPERATIONAL || d !in cfg.domains || t !in cfg.tokens ||
              (d in s.votes && |s.votes[d]| >= Capacity)
    ensures e.reply == Err(MissingEntry(d)) <==>
              s.state == OPERATIONAL && d in cfg.domains && t in cfg.tokens && d !in s.votes
    ensures e.reply == Ok(false) || e.reply == Err(MissingEntry(d)) ==> e.post == s
    ensures e.reply == Ok(true) ==> TypeOK(cfg, e.post) && SafeState(cfg, e.post)
    ensures e.reply != Ok(false) && e.reply != Err(MissingEntry(d)) ==>
              && d in s.votes
              && e.post.votes == s.votes[d := s.votes[d] + [t]]
              && e.post.(votes := s.votes) == s
              && (e.reply == Ok(true) <==> TypeOK(cfg, s))
              && (e.reply != Ok(true) ==> e.reply == Err(TypeOkViolated))
    ensures TypeOK(cfg, s) && DomainsPresent(cfg.domains, s.votes) ==> e.reply.Ok?
  {
    if s.state != OPERATIONAL then Effect(Ok(false), s)
    else if d !in cfg.domains then Effect(Ok(false), s)
    else if t !in cfg.tokens then Effect(Ok(false), s)
    else if d !in s.votes then Effect(Err(MissingEntry(d)), s)
    else if |s.votes[d]| >= Capacity then Effect(Ok(false), s)
    else
      var post := s.(votes := s.votes[d := s.votes[d] + [t]]);
      AppendKeepsConfigured(cfg.tokens, s.votes, d, t);
      match InvariantCheck(cfg, post)
      case Pass => Effect(Ok(true), post)
      case Fail(err) => Effect(Err(err), post)
  }

  /**
   * HaltPrecedence: from OPERATIONAL, scan the domains in configured order;
   * a missing entry raises a KeyError; on the first domain at capacity with a
   * HALT vote, move to SAFE_ON, increment lamport and then re-check the
   * invariants, which fails when lamport was already at its bound.
   */
  function HaltPrecedenceAction(cfg: Config, s: Vars): (e: Effect<Result<bool, Error>>)
    ensures e.post == s || e.post == s.(state := SAFE_ON, lamport := s.lamport + 1)
    ensures s.state != OPERATIONAL ==> e == Effect(Ok(false), s)
    ensures e.reply == Ok(false) ==> e.post == s
    ensures e.post != s ==> s.state == OPERATIONAL && HaltEnabled(cfg.domains, s.votes)
    ensures e.reply.Err? && e.reply.error.MissingEntry? ==>
              e.post == s && e.reply.error.domain in cfg.domains && e.reply.error.domain !in s.votes
    ensures e.reply == Ok(true) ==> e.post != s && TypeOK(cfg, e.post) && SafeState(cfg, e.post)
    ensures DomainsPresent(cfg.domains, s.votes) ==>
              (e.reply == Ok(false) <==> !(s.state == OPERATIONAL && HaltEnabled(cfg.domains, s.votes)))
    ensures DomainsPresent(cfg.domains, s.votes) && s.state == OPERATIONAL && HaltEnabled(cfg.domains, s.votes) ==>
              && e.post == s.(state := SAFE_ON, lamport := s.lamport + 1)
              && (e.reply == Ok(true) <==> TypeOK(cfg, e.post))
              && (TypeOK(cfg, s) ==> (e.reply == Ok(true) <==> s.lamport < cfg.lamportMax))
              && (e.reply != Ok(true) ==> e.reply == Err(TypeOkViolated))
    ensures s.state == OPERATIONAL ==>
              var r := ScanDomains(cfg.domains, s.votes, HaltQuorum);
              && (r.Exhausted? ==> e == Effect(Ok(false), s))
              && (r.Missing? ==> e == Effect(Err(MissingEntry(cfg.domains[r.at])), s))
              && (r.Found? ==>
                    && e.post == s.(state := SAFE_ON, lamport := s.lamport + 1)
                    && (e.reply == Ok(true) <==> TypeOK(cfg, e.post))
                    && (e.reply != Ok(true) ==> e.reply == Err(TypeOkViolated)))
  {
    if s.state != OPERATIONAL then Effect(Ok(false), s)
    else
      ScanForQuorum(cfg.domains, s.votes);
      match ScanDomains(cfg.domains, s.votes, HaltQuorum)
      case Exhausted => Effect(Ok(false), s)
      case Missing(i) => Effect(Err(MissingEntry(cfg.domains[i])), s)
      case Found(_) =>
        QuorumScanWitnessesHalt(cfg.domains, s.votes);
        var post := s.(state := SAFE_ON, lamport := s.lamport + 1);
        match InvariantCheck(cfg, post)
        case Pass => Effect(Ok(true), post)
        case Fail(err) => Effect(Err(err), post)
  }

  /** SafeOnStaysSafe: in SAFE_ON re-check the invariants and answer true; otherwise false. */
  function SafeOnStaysSafeAction(cfg: Config, s: Vars): (e: Effect<Result<bool, Error>>)
    ensures e.post == s
    ensures e.reply == Ok(false) <==> s.state != SAFE_ON
    ensures e.reply == Ok(true) ==> s.state == SAFE_ON && TypeOK(cfg, s) && SafeState(cfg, s)
    ensures DomainsPresent(cfg.domains, s.votes) ==>
              (e.reply == Ok(true) <==> s.state == SAFE_ON && TypeOK(cfg, s) && SafeState(cfg, s))
    ensures s.state == SAFE_ON ==>
              && (e.reply == Ok(true) <==> InvariantCheck(cfg, s) == Pass)
              && (e.reply.Err? <==> InvariantCheck(cfg, s).Fail?)
              && (e.reply.Err? ==> e.reply.error == InvariantCheck(cfg, s).error)
  {
    if s.state == SAFE_ON then
      match InvariantCheck(cfg, s)
      case Pass => Effect(Ok(true), s)
      case Fail(err) => Effect(Err(err), s)
    else Effect(Ok(false), s)
  }

  /** Idle: change nothing, re-check the invariants and answer true. */
  function IdleAction(cfg: Config, s: Vars): (e: Effect<Result<bool, Error>>)
    ensures e.post == s
    ensures e.reply.Ok? ==> e.reply.value && TypeOK(cfg, s) && SafeState(cfg, s)
    ensures DomainsPresent(cfg.domains, s.votes) ==> (e.reply.Ok? <==> TypeOK(cfg, s) && SafeState(cfg, s))
    ensures e.reply.Ok? <==> InvariantCheck(cfg, s) == Pass
    ensures e.reply.Err? ==> e.reply.error == InvariantCheck(cfg, s).error
  {
    match InvariantCheck(cfg, s)
    case Pass => Effect(Ok(true), s)
    case Fail(err) => Effect(Err(err), s)
  }

  /**
   * step: HaltPrecedence first, answering "halt_precedence" when it fired;
   * otherwise SafeOnStaysSafe ("safe_on") in SAFE_ON or Idle ("idle"), which
   * change nothing. The variables change exactly as HaltPrecedence changes them.
   */
  function StepAction(cfg: Config, s: Vars): (e: Effect<Result<string, Error>>)
    ensures e.post == HaltPrecedenceAction(cfg, s).post
    ensures e.reply.Ok? ==> e.reply.value in {"halt_precedence", "safe_on", "idle"}
    ensures e.reply == Ok("halt_precedence") <==> HaltPrecedenceAction(cfg, s).reply == Ok(true)
    ensures e.reply == Ok("safe_on") ==> s.state == SAFE_ON && e.post == s
    ensures e.reply == Ok("idle") ==> s.state == OPERATIONAL && e.post == s
    ensures Sound(cfg, s) ==>
              && e.reply.Ok?
              && (e.reply.value == "halt_precedence" <==> s.state == OPERATIONAL && HaltEnabled(cfg.domains, s.votes))
              && (e.reply.value == "safe_on" <==> s.state == SAFE_ON)
    ensures HaltPrecedenceAction(cfg, s).reply.Err? ==> e.reply == Err(HaltPrecedenceAction(cfg, s).reply.error)
    ensures HaltPrecedenceAction(cfg, s).reply == Ok(false) ==>
              && (e.reply.Err? <==> InvariantCheck(cfg, s).Fail?)
              && (e.reply.Err? ==> e.reply.error == InvariantCheck(cfg, s).error)
  {
    var fired := HaltPrecedenceAction(cfg, s);
    if fired.reply.Err? then Effect(Err(fired.reply.error), fired.post)
    else if fired.reply.value then Effect(Ok("halt_precedence"), fired.post)
    else if s.state == SAFE_ON then
      var stays := SafeOnStaysSafeAction(cfg, s);
      Effect(if stays.reply.Err? then Err(stays.reply.error) else Ok("safe_on"), stays.post)
    else
      var idle := IdleAction(cfg, s);
      Effect(if idle.reply.Err? then Err(idle.reply.error) else Ok("idle"), idle.post)
  }

  /** The actions a caller can take, for reasoning about sequences of calls. */
  datatype Action =
    | DoCastVote(domain: string, token: string)
    | DoHaltPrecedence
    | DoSafeOnStaysSafe
    | DoIdle
    | DoStep

  /**
   * One action, its reply reduced to "returned" or "raised". Whatever the
   * variables, every action leaves a SAFE_ON machine untouched, counts the
   * one OPERATIONAL to SAFE_ON transition in lamport, never touches epoch or
   * the timer and only extends votes; from a sound machine no action raises
   * and the machine stays sound.
   */
  function Apply(cfg: Config, s: Vars, a: Action): (e: Effect<Outcome<Error>>)
    ensures SafeState(cfg, s) ==> SafeState(cfg, e.post)
    ensures s.state == SAFE_ON ==> e.post == s
    ensures e.post.lamport == s.lamport + (if s.state == OPERATIONAL && e.post.state == SAFE_ON then 1 else 0)
    ensures e.post.epoch == s.epoch && e.post.timer == s.timer
    ensures VotesGrow(s.votes, e.post.votes) && (Bounded(s.votes) ==> Bounded(e.post.votes))
    ensures Sound(cfg, s) ==> Sound(cfg, e.post) && e.reply == Pass
  {
    match a
    case DoCastVote(d, t) =>
      var e := CastVoteAction(cfg, s, d, t);
      Effect(Raised(e.reply), e.post)
    case DoHaltPrecedence =>
      var e := HaltPrecedenceAction(cfg, s);
      if e.post != s then EnabledWitnessesHalt(cfg.domains, s.votes); Effect(Raised(e.reply), e.post)
      else Effect(Raised(e.reply), e.post)
    case DoSafeOnStaysSafe =>
      var e := SafeOnStaysSafeAction(cfg, s);
      Effect(Raised(e.reply), e.post)
    case DoIdle =>
      var e := IdleAction(cfg, s);
      Effect(Raised(e.reply), e.post)
    case DoStep =>
      var e := StepAction(cfg, s);
      if e.post != s then EnabledWitnessesHalt(cfg.domains, s.votes); Effect(Raised(e.reply), e.post)
      else Effect(Raised(e.reply), e.post)
  }

  /** The variables after a sequence of actions. */
  function Run(cfg: Config, s: Vars, actions: seq<Action>): Vars
    decreases |actions|
  {
    if actions == [] then s else Run(cfg, Apply(cfg, s, actions[0]).post, actions[1..])
  }

  /** SAFE_ON is a sink, even after an overflow: no sequence of actions changes any variable. */
  lemma {:induction false} SafeOnIsFinal(cfg: Config, s: Vars, actions: seq<Action>)
    requires s.state == SAFE_ON
    ensures Run(cfg, s, actions) == s
    decreases |actions|
  {
    if actions != [] {
      SafeOnIsFinal(cfg, Apply(cfg, s, actions[0]).post, actions[1..]);
    }
  }

  /**
   * SafeState holds after every sequence of actions that starts from it,
   * whatever else is wrong with the machine: entries missing from the vote
   * map, or lamport pushed past its bound by an overflowing HaltPrecedence.
   */
  lemma {:induction false} RunKeepsSafeState(cfg: Config, s: Vars, actions: seq<Action>)
    requires SafeState(cfg, s)
    ensures SafeState(cfg, Run(cfg, s, actions))
    decreases |actions|
  {
    if actions != [] {
      RunKeepsSafeState(cfg, Apply(cfg, s, actions[0]).post, actions[1..]);
    }
  }

  /**
   * lamport never decreases, and over any sequence of actions it grows by
   * exactly one when the machine went from OPERATIONAL to SAFE_ON and by
   * nothing otherwise; the state never goes back to OPERATIONAL.
   */
  lemma {:induction false} RunCountsTransition(cfg: Config, s: Vars, actions: seq<Action>)
    ensures s.state == SAFE_ON ==> Run(cfg, s, actions).state == SAFE_ON
    ensures Run(cfg, s, actions).lamport ==
              s.lamport + (if s.state == OPERATIONAL && Run(cfg, s, actions).state == SAFE_ON then 1 else 0)
    decreases |actions|
  {
    if actions != [] {
      var next := Apply(cfg, s, actions[0]).post;
      RunCountsTransition(cfg, next, actions[1..]);
      if next.state == SAFE_ON {
        SafeOnIsFinal(cfg, next, actions[1..]);
      }
    } else if s.state == SAFE_ON {
      SafeOnIsFinal(cfg, s, actions);
    }
  }

  /**
   * Over any sequence of actions the votes only grow (same keys, each
   * sequence extended at its end), no entry grows past Capacity votes, and
   * epoch and the provisional timer never change.
   */
  lemma {:induction false} RunGrowsVotes(cfg: Config, s: Vars, actions: seq<Action>)
    ensures VotesGrow(s.votes, Run(cfg, s, actions).votes)
    ensures Bounded(s.votes) ==> Bounded(Run(cfg, s, actions).votes)
    ensures Run(cfg, s, actions).epoch == s.epoch && Run(cfg, s, actions).timer == s.timer
    decreases |actions|
  {
    if actions != [] {
      var next := Apply(cfg, s, actions[0]).post;
      RunGrowsVotes(cfg, next, actions[1..]);
      VotesGrowTransitive(s.votes, next.votes, Run(cfg, next, actions[1..]).votes);
    }
  }

  /**
   * A sound machine stays sound over any sequence of actions, so (by Apply)
   * none of the actions along the way raises.
   */
  lemma {:induction false} RunStaysSound(cfg: Config, s: Vars, actions: seq<Action>)
    requires Sound(cfg, s)
    ensures Sound(cfg, Run(cfg, s, actions))
    decreases |actions|
  {
    if actions != [] {
      RunStaysSound(cfg, Apply(cfg, s, actions[0]).post, actions[1..]);
    }
  }

  /**
   * Without an increment guard, HaltPrecedence at the lamport bound changes
   * the variables and then raises; the machine is left in SAFE_ON, outside
   * TypeOK for good, and every later re-check raises; SafeState still holds.
   */
  lemma {:induction false} OverflowBreaksTypeOK(cfg: Config, s: Vars, actions: seq<Action>)
    requires TypeOK(cfg, s) && DomainsPresent(cfg.domains, s.votes)
    requires s.state == OPERATIONAL && HaltEnabled(cfg.domains, s.votes) && s.lamport == cfg.lamportMax
    ensures HaltPrecedenceAction(cfg, s).reply == Err(TypeOkViolated)
    ensures HaltPrecedenceAction(cfg, s).post == s.(state := SAFE_ON, lamport := cfg.lamportMax + 1)
    ensures SafeState(cfg, HaltPrecedenceAction(cfg, s).post)
    ensures Run(cfg, HaltPrecedenceAction(cfg, s).post, actions) == HaltPrecedenceAction(cfg, s).post
    ensures IdleAction(cfg, Run(cfg, HaltPrecedenceAction(cfg, s).post, actions)).reply == Err(TypeOkViolated)
  {
    SafeOnIsFinal(cfg, HaltPrecedenceAction(cfg, s).post, actions);
  }

  /**
   * Construction without overrides gives every configured domain an empty
   * sequence; it succeeds exactly when both bounds are natural, and the
   * machine it builds is sound when lamport_max is positive.
   */
  lemma DefaultConstruction(cfg: Config)
    ensures Seeded(cfg, Defaults).votes == EmptyVotes(cfg.domains)
    ensures TypeOK(cfg, Seeded(cfg, Defaults)) <==> cfg.epochMax >= 0 && cfg.lamportMax >= 0
    ensures DomainsPresent(cfg.domains, Seeded(cfg, Defaults).votes)
    ensures TypeOK(cfg, Seeded(cfg, Defaults)) && cfg.lamportMax > 0 ==> Sound(cfg, Seeded(cfg, Defaults))
  {

  }

  /**
   * The weaker TypeOK admits a vote map without the configured domains: a
   * machine built from one is accepted, and a vote in a configured domain
   * then raises a KeyError instead of being refused.
   */
  lemma MissingDomainRaises(cfg: Config, d: string, t: string)
    requires cfg.epochMax >= 0 && cfg.lamportMax >= 0
    requires d in cfg.domains && t in cfg.tokens && d != "x"
    ensures TypeOK(cfg, Seeded(cfg, Defaults.(votes := map["x" := []])))
    ensures CastVoteAction(cfg, Seeded(cfg, Defaults.(votes := map["x" := []])), d, t).reply == Err(MissingEntry(d))
  {
    var votes: Votes := map["x" := []];
    assert "x" in votes && votes != map[];
    assert VotesConfigured(cfg.tokens, votes);
  }

  /**
   * The SafeState search is ordered: with domains A then B, a SAFE_ON
   * machine whose only entry is a HALT vote in B satisfies SafeState and the
   * weaker TypeOK, yet its re-check raises a KeyError for A.
   */
  lemma KeyErrorDespiteWitness(cfg: Config)
    requires cfg.domains == ["A", "B"] && Halt in cfg.tokens && cfg.epochMax >= 0 && cfg.lamportMax >= 0
    ensures TypeOK(cfg, Vars(SAFE_ON, 0, 0, map["B" := [Halt]], 0))
    ensures SafeState(cfg, Vars(SAFE_ON, 0, 0, map["B" := [Halt]], 0))
    ensures IdleAction(cfg, Vars(SAFE_ON, 0, 0, map["B" := [Halt]], 0)).reply == Err(MissingEntry("A"))
  {
    var votes: Votes := map["B" := [Halt]];
    assert "A" !in votes && "B" in votes && HasHalt(votes["B"]);
    assert cfg.domains[1] == "B";
    assert VotesConfigured(cfg.tokens, votes);
  }

  /** The machine of usp_cli.py: the five protocol variables, updated in place. */
  class UspVirel {
    const cfg: Config
    var state: Phase
    var epoch: int
    var lamport: int
    var quorumVotes: Votes
    var provisionalTimer: int

    /** The protocol variables of this machine, as one value. */
    function View(): Vars
      reads this
    {
      Vars(state, epoch, lamport, quorumVotes, provisionalTimer)
    }

    /** __post_init__ when its TypeOK check passes; SafeState is not checked. */
    constructor (cfg: Config, init: Vars)
      requires TypeOK(cfg, Seeded(cfg, init))
      ensures this.cfg == cfg && View() == Seeded(cfg, init)
    {
      this.cfg := cfg;
      var s := Seeded(cfg, init);
      state, epoch, lamport := s.state, s.epoch, s.lamport;
      quorumVotes, provisionalTimer := s.votes, s.timer;
    }

    /** Construction from a configuration and overrides, raising when TypeOK fails. */
    static method Create(cfg: Config, init: Vars) returns (r: Result<UspVirel, Error>)
      ensures r.Ok? <==> TypeOK(cfg, Seeded(cfg, init))
      ensures r.Err? ==> r.error == TypeOkViolated
      ensures r.Ok? ==> fresh(r.value) && r.value.cfg == cfg && r.value.View() == Seeded(cfg, init)
    {
      if !TypeOK(cfg, Seeded(cfg, init)) {
        return Err(TypeOkViolated);
      }
      var m := new UspVirel(cfg, init);
      return Ok(m);
    }

    /** assert_invariants. */
    method AssertInvariants() returns (o: Outcome<Error>)
      ensures o == InvariantCheck(cfg, View())
    {
      ScanForHalt(cfg.domains, quorumVotes);
      if !TypeOK(cfg, View()) {
        return Fail(TypeOkViolated);
      }
      if state == SAFE_ON {
        var i := 0;
        while i < |cfg.domains|
          invariant 0 <= i <= |cfg.domains|
          invariant forall j :: 0 <= j < i ==> cfg.domains[j] in quorumVotes && !HasHalt(quorumVotes[cfg.domains[j]])
        {
          var d := cfg.domains[i];
          if d !in quorumVotes {
            return Fail(MissingEntry(d));
          }
          if HasHalt(quorumVotes[d]) {
            return Pass;
          }
          i := i + 1;
        }
        return Fail(SafeStateViolated);
      }
      return Pass;
    }

    /** cast_vote. */
    method CastVote(d: string, t: string) returns (r: Result<bool, Error>)
      modifies this
      ensures Effect(r, View()) == CastVoteAction(cfg, old(View()), d, t)
    {
      if state != OPERATIONAL {
        return Ok(false);
      }
      if d !in cfg.domains {
        return Ok(false);
      }
      if t !in cfg.tokens {
        return Ok(false);
      }
      if d !in quorumVotes {
        return Err(MissingEntry(d));
      }
      if |quorumVotes[d]| >= Capacity {
        return Ok(false);
      }
      quorumVotes := quorumVotes[d := quorumVotes[d] + [t]];
      var o := AssertInvariants();
      return if o.Pass? then Ok(true) else Err(o.error);
    }

    /** halt_precedence: the domains are scanned in configured order, stopping at the first match. */
    method HaltPrecedence() returns (r: Result<bool, Error>)
      modifies this
      ensures Effect(r, View()) == HaltPrecedenceAction(cfg, old(View()))
    {
      if state != OPERATIONAL {
        return Ok(false);
      }
      var i := 0;
      while i < |cfg.domains|
        invariant 0 <= i <= |cfg.domains|
        invariant View() == old(View())
        invariant forall j :: 0 <= j < i ==>
                    cfg.domains[j] in quorumVotes && !HaltQuorum(quorumVotes[cfg.domains[j]])
      {
        var d := cfg.domains[i];
        if d !in quorumVotes {
          return Err(MissingEntry(d));
        }
        if |quorumVotes[d]| >= Capacity && HasHalt(quorumVotes[d]) {
          state := SAFE_ON;
          lamport := lamport + 1;
          var o := AssertInvariants();
          return if o.Pass? then Ok(true) else Err(o.error);
        }
        i := i + 1;
      }
      return Ok(false);
    }

    /** safe_on_stays_safe: changes nothing. */
    method SafeOnStaysSafe() returns (r: Result<bool, Error>)
      ensures r == SafeOnStaysSafeAction(cfg, View()).reply
    {
      if state == SAFE_ON {
        var o := AssertInvariants();
        return if o.Pass? then Ok(true) else Err(o.error);
      }
      return Ok(false);
    }

    /** idle: changes nothing. */
    method Idle() returns (r: Result<bool, Error>)
      ensures r == IdleAction(cfg, View()).reply
    {
      var o := AssertInvariants();
      return if o.Pass? then Ok(true) else Err(o.error);
    }

    /** step: HaltPrecedence first, else the non-changing action for the current state, as a tag. */
    method Step() returns (r: Result<string, Error>)
      modifies this
      ensures Effect(r, View()) == StepAction(cfg, old(View()))
    {
      var fired := HaltPrecedence();
      if fired.Err? {
        return Err(fired.error);
      }
      if fired.value {
        return Ok("halt_precedence");
      }
      if state == SAFE_ON {
        var stays := SafeOnStaysSafe();
        return if stays.Err? then Err(stays.error) else Ok("safe_on");
      }
      var idle := Idle();
      return if idle.Err? then Err(idle.error) else Ok("idle");
    }
  }
}
