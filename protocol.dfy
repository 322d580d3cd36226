/**
 * Vocabulary shared by the two copies of the USP_VIREL protocol state
 * machine (module Reference for USP-VIREL.py, module Cli for usp_cli.py):
 * the frozen configuration, the five protocol variables as one value, the
 * HasHALT test, the SafeState invariant and the in-order scan over the
 * configured domains that both HaltPrecedence and the SafeState check run.
 */
module Protocol {

  /** The value of the `state` variable. */
  datatype Phase = OPERATIONAL | SAFE_ON

  /**
   * The frozen configuration (the CONSTANTS of the protocol). Domains and
   * tokens are lists: duplicates are not rejected, and the order of
   * `domains` is the order in which the domains are scanned.
   */
  datatype Config = Config(domains: seq<string>, tokens: seq<string>,
                           epochMax: int, lamportMax: int, holdMs: int)

  /** quorum_votes: the tokens cast in each domain, oldest first. */
  type Votes = map<string, seq<string>>

  /** The protocol variables state, epoch, lamport, quorum_votes, provisional_timer. */
  datatype Vars = Vars(state: Phase, epoch: int, lamport: int, votes: Votes, timer: int)

  /** What an operation returns, or the exception it raises. */
  datatype Result<+T, +E> = Ok(value: T) | Err(error: E)

  /** An operation that returns nothing, or the exception it raises. */
  datatype Outcome<+E> = Pass | Fail(error: E)

  /** A reply reduced to "returned" or "raised". */
  function Raised<T, E>(r: Result<T, E>): Outcome<E>
  {
    if r.Ok? then Pass else Fail(r.error)
  }

  /** The reply of an action together with the variables after it. */
  datatype Effect<+R> = Effect(reply: R, post: Vars)

  const Halt: string := "HALT"

  /** A domain accepts at most this many votes. */
  const Capacity: nat := 2

  /** The dataclass defaults: the variables when the caller overrides none. */
  const Defaults: Vars := Vars(OPERATIONAL, 0, 0, map[], 0)

  /** HasHALT: some vote of the sequence is "HALT". */
  predicate HasHalt(v: seq<string>)
    ensures HasHalt(v) <==> exists i :: 0 <= i < |v| && v[i] == Halt
  {
    Halt in v
  }

  /** The guard HaltPrecedence puts on one domain: at capacity and holding a HALT. */
  predicate HaltQuorum(v: seq<string>)
  {
    |v| >= Capacity && HasHalt(v)
  }

  /** Every vote stored under every key is a configured token. */
  predicate VotesConfigured(tokens: seq<string>, votes: Votes)
  {
    forall d :: d in votes ==> forall i :: 0 <= i < |votes[d]| ==> votes[d][i] in tokens
  }

  /** Every configured domain has an entry in the vote map. */
  predicate DomainsPresent(domains: seq<string>, votes: Votes)
  {
    forall i :: 0 <= i < |domains| ==> domains[i] in votes
  }

  /** The vote bound of the finite-state model: no domain holds more than Capacity votes. */
  predicate Bounded(votes: Votes)
  {
    forall d :: d in votes ==> |votes[d]| <= Capacity
  }

  /** Votes only grow: the same domains, and each old sequence is a prefix of the new one. */
  predicate VotesGrow(before: Votes, after: Votes)
  {
    before.Keys == after.Keys && forall d :: d in before ==> before[d] <= after[d]
  }

  /** The guard of HaltPrecedence as the protocol states it: some configured domain qualifies. */
  predicate HaltEnabled(domains: seq<string>, votes: Votes)
  {
    exists i :: 0 <= i < |domains| && domains[i] in votes && HaltQuorum(votes[domains[i]])
  }

  /** Some configured domain holds a HALT vote. */
  predicate HaltWitnessed(domains: seq<string>, votes: Votes)
  {
    exists i :: 0 <= i < |domains| && domains[i] in votes && HasHalt(votes[domains[i]])
  }

  /** SafeState: the machine is SAFE_ON only with a witnessing HALT vote in some domain. */
  predicate SafeState(cfg: Config, s: Vars)
  {
    s.state == SAFE_ON ==> HaltWitnessed(cfg.domains, s.votes)
  }

  /** One empty vote sequence per configured domain. */
  function EmptyVotes(domains: seq<string>): (v: Votes)
    ensures forall d :: d in v <==> d in domains
    ensures forall d :: d in v ==> v[d] == []
  {
    map d | d in domains :: []
  }

  /**
   * The variables right after construction: an empty vote map is replaced by
   * one empty sequence per configured domain; every other override is kept.
   */
  function Seeded(cfg: Config, init: Vars): (s: Vars)
    ensures s.(votes := init.votes) == init
    ensures init.votes != map[] ==> s == init
    ensures init.votes == map[] ==>
              DomainsPresent(cfg.domains, s.votes) && s.votes.Keys == (set d | d in cfg.domains) &&
              forall d :: d in s.votes ==> s.votes[d] == []
  {
    if init.votes == map[] then init.(votes := EmptyVotes(cfg.domains)) else init
  }

  /**
   * Where a scan over the domains stopped: at the first domain that satisfied
   * the test, at the first domain missing from the vote map (a KeyError in the
   * source), or after the last domain.
   */
  datatype Scan = Found(at: nat) | Missing(at: nat) | Exhausted
  {
    /** How many domains the scan looked at and passed over. */
    function Passed(n: nat): nat
    {
      if Exhausted? then n else at
    }
  }

  /**
   * `for d in domains: if test(quorum_votes[d]) ...`, stopping at the first
   * match. Every domain passed over is present and fails the test.
   */
  function ScanDomains(domains: seq<string>, votes: Votes, test: seq<string> -> bool): (r: Scan)
    ensures r.Passed(|domains|) <= |domains|
    ensures r.Found? ==> r.at < |domains| && domains[r.at] in votes && test(votes[domains[r.at]])
    ensures r.Missing? ==> r.at < |domains| && domains[r.at] !in votes
    ensures forall j :: 0 <= j < r.Passed(|domains|) ==>
              domains[j] in votes && !test(votes[domains[j]])
  {
    if |domains| == 0 then Exhausted
    else if domains[0] !in votes then Missing(0)
    else if test(votes[domains[0]]) then Found(0)
    else match ScanDomains(domains[1..], votes, test)
      case Found(i) => Found(i + 1)
      case Missing(i) => Missing(i + 1)
      case Exhausted => Exhausted
  }

  /**
   * A success of the ordered scan for a halt quorum witnesses HaltPrecedence's
   * guard and a HALT vote; with every configured domain present, the scan
   * never hits a missing entry and succeeds exactly when the guard holds.
   */
  lemma ScanForQuorum(domains: seq<string>, votes: Votes)
    ensures ScanDomains(domains, votes, HaltQuorum).Found? ==>
              HaltEnabled(domains, votes) && HaltWitnessed(domains, votes)
    ensures DomainsPresent(domains, votes) ==>
              !ScanDomains(domains, votes, HaltQuorum).Missing? &&
              (ScanDomains(domains, votes, HaltQuorum).Found? <==> HaltEnabled(domains, votes))
  {

  }

  /**
   * A success of the ordered scan for a HALT vote (the `any(...)` of the
   * SafeState check) witnesses a HALT vote in some configured domain; with
   * every configured domain present, the scan never hits a missing entry and
   * succeeds exactly when some configured domain holds a HALT vote.
   */
  lemma ScanForHalt(domains: seq<string>, votes: Votes)
    ensures ScanDomains(domains, votes, HasHalt).Found? ==> HaltWitnessed(domains, votes)
    ensures DomainsPresent(domains, votes) ==>
              !ScanDomains(domains, votes, HasHalt).Missing? &&
              (ScanDomains(domains, votes, HasHalt).Found? <==> HaltWitnessed(domains, votes))
  {

  }

  /**
   * When the scan for a halt quorum succeeds, the later scan for a HALT vote
   * (the SafeState check run after HaltPrecedence fires) succeeds too: every
   * domain before the quorum is present and the quorum itself holds a HALT.
   */
  lemma QuorumScanWitnessesHalt(domains: seq<string>, votes: Votes)
    requires ScanDomains(domains, votes, HaltQuorum).Found?
    ensures ScanDomains(domains, votes, HasHalt).Found?
  {

  }

  /** A domain with a halt quorum holds a HALT vote, so enabling HaltPrecedence witnesses SafeState. */
  lemma EnabledWitnessesHalt(domains: seq<string>, votes: Votes)
    requires HaltEnabled(domains, votes)
    ensures HaltWitnessed(domains, votes)
  {

  }

  /**
   * Appending a configured token to an existing entry keeps every stored
   * vote configured, and the votes before the append were all configured
   * when the votes after it are.
   */
  lemma AppendKeepsConfigured(tokens: seq<string>, votes: Votes, d: string, t: string)
    requires d in votes && t in tokens
    ensures VotesConfigured(tokens, votes[d := votes[d] + [t]]) <==> VotesConfigured(tokens, votes)
  {
    var after := votes[d := votes[d] + [t]];
    if VotesConfigured(tokens, after) {
      forall x, i | x in votes && 0 <= i < |votes[x]|
        ensures votes[x][i] in tokens
      {
        assert x in after;
        if x == d {
          assert after[x][i] == votes[x][i];
        }
      }
    }
  }

  /** VotesGrow is transitive, so runs of actions only ever extend the votes. */
  lemma VotesGrowTransitive(a: Votes, b: Votes, c: Votes)
    requires VotesGrow(a, b) && VotesGrow(b, c)
    ensures VotesGrow(a, c)
  {

  }
}
