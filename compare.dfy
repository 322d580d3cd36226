/**
 * How the two copies of the machine relate: the TypeOK of usp_cli.py is the
 * TypeOK of USP-VIREL.py without the domain-key and timer checks, and on a
 * machine with the reference TypeOK every action (cast_vote, halt_precedence,
 * safe_on_stays_safe, idle, and auto_step against step) takes the same step
 * in both; they differ only on caller mistakes (a raise against a refusal)
 * and at the lamport bound (a raise before the change against one after it).
 */
module Compare {
  import opened Protocol
  import Reference
  import Cli

  /**
   * The reference TypeOK is the command-line TypeOK plus exactly one entry
   * per configured domain and a natural timer.
   */
  lemma TypeOKRefines(cfg: Config, s: Vars)
    ensures Reference.TypeOK(cfg, s) <==>
              Cli.TypeOK(cfg, s) && s.votes.Keys == (set d | d in cfg.domains) && s.timer >= 0
    ensures Reference.TypeOK(cfg, s) ==> Cli.TypeOK(cfg, s) && DomainsPresent(cfg.domains, s.votes)
  {
  }

  /**
   * A valid vote in a configured domain has the same effect in both copies;
   * an unknown domain or token raises in one and is refused in the other.
   */
  lemma CastVoteAgrees(cfg: Config, s: Vars, d: string, t: string)
    requires Reference.TypeOK(cfg, s)
    ensures d in cfg.domains && t in cfg.tokens ==>
              Cli.CastVoteAction(cfg, s, d, t).post == Reference.CastVoteAction(cfg, s, d, t).post &&
              Cli.CastVoteAction(cfg, s, d, t).reply.Ok? &&
              Cli.CastVoteAction(cfg, s, d, t).reply.value == Reference.CastVoteAction(cfg, s, d, t).reply.value
    ensures !(d in cfg.domains && t in cfg.tokens) ==>
              Cli.CastVoteAction(cfg, s, d, t) == Effect(Ok(false), s) &&
              Reference.CastVoteAction(cfg, s, d, t).reply.Err? &&
              Reference.CastVoteAction(cfg, s, d, t).post == s
  {

  }

  /**
   * Idle changes nothing in either copy, and on a machine with the reference
   * TypeOK one copy raises exactly when the other does.
   */
  lemma IdleAgrees(cfg: Config, s: Vars)
    requires Reference.TypeOK(cfg, s)
    ensures Cli.IdleAction(cfg, s).post == Reference.IdleAction(cfg, s).post == s
    ensures Cli.IdleAction(cfg, s).reply.Ok? <==> Reference.IdleAction(cfg, s).reply.Pass?
  {
  }

  /**
   * SafeOnStaysSafe changes nothing in either copy, and on a machine with the
   * reference TypeOK both answer alike: the same value, or both raise.
   */
  lemma SafeOnStaysSafeAgrees(cfg: Config, s: Vars)
    requires Reference.TypeOK(cfg, s)
    ensures Cli.SafeOnStaysSafeAction(cfg, s).post == Reference.SafeOnStaysSafeAction(cfg, s).post == s
    ensures Cli.SafeOnStaysSafeAction(cfg, s).reply.Ok? <==> Reference.SafeOnStaysSafeAction(cfg, s).reply.Ok?
    ensures Cli.SafeOnStaysSafeAction(cfg, s).reply.Ok? ==>
              Cli.SafeOnStaysSafeAction(cfg, s).reply.value == Reference.SafeOnStaysSafeAction(cfg, s).reply.value
  {
  }

  /**
   * Below the lamport bound auto_step and step move to the same variables,
   * and one raises exactly when the other does.
   */
  lemma AutoStepAgrees(cfg: Config, s: Vars)
    requires Reference.TypeOK(cfg, s) && s.lamport < cfg.lamportMax
    ensures Cli.StepAction(cfg, s).post == Reference.AutoStepAction(cfg, s).post
    ensures Cli.StepAction(cfg, s).reply.Ok? <==> Reference.AutoStepAction(cfg, s).reply.Pass?
  {
  }

  /**
   * Below the lamport bound both copies fire HaltPrecedence on the same
   * machines and move to the same variables; at the bound the reference
   * raises and changes nothing, while the command-line copy changes the
   * variables and then raises.
   */
  lemma HaltPrecedenceAgrees(cfg: Config, s: Vars)
    requires Reference.TypeOK(cfg, s)
    ensures s.lamport < cfg.lamportMax ==>
              && Cli.HaltPrecedenceAction(cfg, s).post == Reference.HaltPrecedenceAction(cfg, s).post
              && Cli.HaltPrecedenceAction(cfg, s).reply.Ok? && Reference.HaltPrecedenceAction(cfg, s).reply.Ok?
              && Cli.HaltPrecedenceAction(cfg, s).reply.value == Reference.HaltPrecedenceAction(cfg, s).reply.value
    ensures s.state == OPERATIONAL && HaltEnabled(cfg.domains, s.votes) && s.lamport == cfg.lamportMax ==>
              && Reference.HaltPrecedenceAction(cfg, s) == Effect(Err(Reference.CounterOverflow), s)
              && Cli.HaltPrecedenceAction(cfg, s) ==
                 Effect(Err(Cli.TypeOkViolated), s.(state := SAFE_ON, lamport := s.lamport + 1))
  {

  }
}
