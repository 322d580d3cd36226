# USP_VIREL protocol state machine, in Dafny

USP_VIREL is a small coordination protocol. A component starts OPERATIONAL
and moves, irreversibly, to the fail-safe mode SAFE_ON once some domain has
gathered a quorum of two votes, one of which is "HALT". The machine has five
variables:

- `state`
- `epoch` and `lamport`, bounded by `epoch_max` and `lamport_max`
- `quorum_votes`, the tokens cast in each domain, oldest first
- `provisional_timer`

Its actions are CastVote, HaltPrecedence, SafeOnStaysSafe and Idle, plus a
convenience step that tries HaltPrecedence first. Two invariants are
re-checked after the actions:

- TypeOK: the variables are in range and every vote is a configured token.
- SafeState: SAFE_ON implies some domain holds a HALT vote.

The repository holds two copies of this machine that do not behave alike.
Both are modelled here:

- `reference.dfy`, module `Reference`, models `USP-VIREL.py`.
  - An unknown domain or token raises, even in SAFE_ON.
  - HaltPrecedence raises `CounterOverflow` before changing anything when
    `lamport` is at its bound.
  - TypeOK asks for exactly one vote entry per configured domain.
  - As a result TypeOK is an object invariant (`UspVirel.Valid`) that every
    action keeps.
- `cli.dfy`, module `Cli`, models `usp_cli.py`.
  - Every caller mistake is a refusal (`false`), and the state guard is
    checked first.
  - HaltPrecedence has no lamport guard. At the bound it moves to SAFE_ON,
    increments `lamport` and only then fails the TypeOK check (with
    assertions enabled; see "## Left out").
  - The weaker TypeOK does not check which domains have entries. A configured
    domain without an entry raises a KeyError, modelled as `MissingEntry`,
    when cast_vote, halt_precedence or the SafeState check looks it up.
  - `step` answers "halt_precedence", "safe_on" or "idle".
- `compare.dfy`, module `Compare`, proves where the two copies agree and
  where they part.
- `protocol.dfy`, module `Protocol`, holds what the two copies share:
  - the configuration and the variables as one value (`Vars`)
  - HasHALT and SafeState
  - the ordered first-match scan over the configured domains (`ScanDomains`)

Each source file is modelled in two layers:

- Pure action functions on `Vars`. Each returns the reply or the raised
  exception together with the new variables (`Effect`). `Apply` and `Run`
  play sequences of actions, and lemmas about runs state the protocol
  properties:
  - SAFE_ON is a sink.
  - `lamport` grows by exactly one, on the transition to SAFE_ON.
  - Votes only grow. A vote map with at most two votes per domain stays so.
  - SafeState, once it holds, holds after any run. In `usp_cli.py` this
    includes machines with missing entries and machines pushed past the
    lamport bound.
  - From a sound machine nothing fatal is ever raised.
- A class `UspVirel` with the source's mutable fields. Each method changes
  the fields in place and is proved to produce the reply and new variables
  of its action function. `halt_precedence` keeps its loop over the
  domains, with an early return at the first match.

The assertion failures of the source become error values (`Err`/`Fail`) when
they can actually occur. In the `Reference` copy, the re-checks after
`cast_vote` and `halt_precedence` can never fail. They are not modelled as
run-time branches. The action functions' postconditions prove instead that
both invariants hold afterwards.

Construction runs only the TypeOK check (USP-VIREL.py:43, usp_cli.py:39).
SafeState is not checked there, and the model follows the code.
A machine whose variables were overridden into SAFE_ON without any HALT vote
is therefore built, and its `idle`/`safe_on_stays_safe` then raise.
`Reference.ConstructionSkipsSafeState` proves this.

Neither copy's TypeOK checks how many votes a domain holds. Only cast_vote
refuses a third vote. An overridden vote map with more than two votes in a
domain is therefore accepted and kept as it is.
`Reference.OverfullOverrideKept` proves this.

## Model

| member | source | states |
|---|---|---|
| Protocol.HasHalt | USP-VIREL.py:49-53 | HasHALT(d): the domain's sequence holds "HALT" exactly when some position of it equals "HALT" |
| Protocol.HaltQuorum | USP-VIREL.py:152 | the per-domain guard of halt_precedence: the domain holds at least 2 votes and one of them is "HALT" |
| Protocol.HaltEnabled | USP-VIREL.py:137-141 | the guard of HaltPrecedence as the TLA+ action states it: some configured domain with an entry satisfies the per-domain guard |
| Protocol.SafeState | USP-VIREL.py:76-84 | SafeState: a SAFE_ON machine has some configured domain whose entry holds a HALT vote; an OPERATIONAL machine satisfies it trivially |
| Protocol.EmptyVotes | USP-VIREL.py:40-42 | the synthesized vote map has exactly the configured domains as keys, each with an empty sequence |
| Protocol.Seeded | USP-VIREL.py:39-43 | construction keeps every override; only an empty vote map is replaced, by one empty sequence per configured domain, so every configured domain is then present |
| Protocol.ScanDomains | USP-VIREL.py:151-152 | the in-order scan over the configured domains stops at the first domain that passes the test, or at the first one missing from the vote map; every domain before the stop is present and fails the test |
| Protocol.ScanForQuorum | USP-VIREL.py:137-152 | a successful scan witnesses the TLA+ guard "∃ d: Len ≥ 2 ∧ HasHALT(d)" and a HALT vote; with every domain present, the ordered scan succeeds exactly when that guard holds and never hits a missing entry |
| Protocol.ScanForHalt | USP-VIREL.py:82-84 | the ordered `any` over HasHALT succeeds only when some configured domain holds a HALT; with every domain present, it succeeds exactly then |
| Protocol.QuorumScanWitnessesHalt | usp_cli.py:95-100 | after the scan for a quorum succeeds, the SafeState search that follows the firing succeeds too, so it raises neither a KeyError nor a SafeState violation |
| Protocol.EnabledWitnessesHalt | USP-VIREL.py:138-141 | a domain satisfying the HaltPrecedence guard witnesses SafeState |
| Protocol.AppendKeepsConfigured | usp_cli.py:86-88 | appending a configured token keeps "every stored vote is a configured token", and the votes before were configured when the votes after are |
| Protocol.VotesGrowTransitive | USP-VIREL.py:120-126 | the append-only growth of the vote map composes over several actions |
| Reference.TypeOK | USP-VIREL.py:55-74 | TypeOK: both counters in bounds, vote keys exactly the configured domains, only configured tokens, a natural timer; it implies every configured domain has an entry |
| Reference.InvariantCheck | USP-VIREL.py:86-92 | assert_invariants passes exactly when TypeOK and SafeState hold, and raises the TypeOK failure first |
| Reference.CastVoteAction | USP-VIREL.py:98-131 | an unknown domain, then an unknown token, raises whatever the state; otherwise the reply is false in SAFE_ON or for a full domain, and true exactly when OPERATIONAL with fewer than 2 votes; only a true reply changes anything, appending the token to that domain alone; TypeOK and SafeState hold afterwards |
| Reference.HaltPrecedenceAction | USP-VIREL.py:133-162 | fires exactly when OPERATIONAL, some domain has ≥ 2 votes including HALT and lamport is below its bound; firing sets SAFE_ON and lamport + 1 and nothing else, and leaves SafeState witnessed; with the guard met at the bound it raises CounterOverflow and changes nothing; otherwise false and no change |
| Reference.SafeOnStaysSafeAction | USP-VIREL.py:164-180 | changes nothing; true exactly in SAFE_ON with SafeState, false exactly in OPERATIONAL, raises exactly when SafeState fails |
| Reference.IdleAction | USP-VIREL.py:182-189 | changes nothing; raises, with a SafeState violation only, exactly when SafeState fails |
| Reference.AutoStepAction | USP-VIREL.py:195-211 | fires HaltPrecedence when it is enabled and otherwise leaves every variable unchanged; raises CounterOverflow exactly when the guard is met at the lamport bound, and a SafeState violation exactly when SafeState fails |
| Reference.Apply | USP-VIREL.py:98-211 | every action keeps TypeOK and SafeState, leaves a SAFE_ON machine unchanged, adds 1 to lamport exactly on the move to SAFE_ON, keeps epoch and timer, only appends votes, and a vote map with at most 2 votes per domain stays so; from a sound machine it raises only caller errors and keeps it sound |
| Reference.Run | USP-VIREL.py:98-211 | TypeOK holds after every sequence of actions |
| Reference.SafeOnIsFinal | USP-VIREL.py:148-155 | once SAFE_ON, no sequence of actions changes any variable; the only write to `state` sets SAFE_ON |
| Reference.RunKeepsSafeState | USP-VIREL.py:76-84 | SafeState holds after every sequence of actions that starts from it |
| Reference.RunCountsTransition | USP-VIREL.py:153-156 | over any run the state never returns to OPERATIONAL, and lamport grows by exactly 1 if the run moved to SAFE_ON and by 0 otherwise |
| Reference.RunGrowsVotes | USP-VIREL.py:115-126 | over any run the vote keys stay the same, every sequence is only extended, a vote map with at most 2 votes per domain stays so, and epoch and the timer never change |
| Reference.RunStaysSound | USP-VIREL.py:153-154 | a sound machine (TypeOK, SafeState, room for the increment while OPERATIONAL) stays sound over any run, so no fatal error is ever raised along it |
| Reference.DefaultConstruction | USP-VIREL.py:39-43 | without overrides every domain gets an empty sequence; construction succeeds exactly when both bounds are ≥ 0; the result satisfies SafeState and is sound when lamport_max > 0 |
| Reference.ConstructionSkipsSafeState | USP-VIREL.py:39-43 | construction checks TypeOK only: a machine overridden into SAFE_ON with no votes is accepted, violates SafeState, and its idle raises |
| Reference.OverfullOverrideKept | USP-VIREL.py:39-43 | TypeOK does not bound a domain's votes: an override with three HALT votes in one domain passes construction, stays over the bound of 2 after any run, and a further vote there is refused |
| Reference.UspVirel.constructor | USP-VIREL.py:39-43 | the new machine holds the seeded variables and satisfies TypeOK |
| Reference.UspVirel.Create | USP-VIREL.py:39-43 | construction succeeds exactly when the seeded variables satisfy TypeOK, and raises the TypeOK failure otherwise |
| Reference.UspVirel.AssertInvariants | USP-VIREL.py:86-92 | on a machine, assert_invariants passes exactly when SafeState holds, and can only raise a SafeState violation |
| Reference.UspVirel.CastVote | USP-VIREL.py:98-131 | the reply and the new fields are those of CastVoteAction on the old fields; TypeOK is kept |
| Reference.UspVirel.HaltPrecedence | USP-VIREL.py:133-162 | the loop over the domains with its early return gives the reply and new fields of HaltPrecedenceAction; TypeOK is kept |
| Reference.UspVirel.SafeOnStaysSafe | USP-VIREL.py:164-180 | changes no field and answers as SafeOnStaysSafeAction |
| Reference.UspVirel.Idle | USP-VIREL.py:182-189 | changes no field and answers as IdleAction |
| Reference.UspVirel.AutoStep | USP-VIREL.py:195-211 | the reply and new fields are those of AutoStepAction; TypeOK is kept |
| Cli.TypeOK | usp_cli.py:46-54 | the weaker TypeOK: both counters in bounds and every vote under every key a configured token; no check of which domains have entries or of the timer's sign |
| Cli.InvariantCheck | usp_cli.py:46-65 | a pass implies TypeOK and SafeState, and with every domain present is equivalent to them; the TypeOK failure is raised exactly when TypeOK fails; on a TypeOK machine OPERATIONAL passes, and in SAFE_ON the in-order search decides: a pass exactly when it finds a HALT first, a SafeState violation exactly when it runs out, and a KeyError for the first missing configured domain it reaches |
| Cli.CastVoteAction | usp_cli.py:69-89 | false, with no change, exactly in SAFE_ON, for an unknown domain or token, or for a full domain; a KeyError, with no change, for a configured domain without an entry; otherwise the token is appended to that domain alone and the reply is true exactly when TypeOK held; it never raises on a TypeOK machine whose domains are all present |
| Cli.HaltPrecedenceAction | usp_cli.py:91-103 | changes nothing or exactly sets SAFE_ON with lamport + 1, and changes only when OPERATIONAL with the guard met; from OPERATIONAL the in-order scan decides: false with no change when it runs out, a KeyError with no change for the first missing domain it reaches, and on the first domain with a halt quorum it mutates first and answers true exactly when the new variables satisfy TypeOK, raising the TypeOK failure otherwise (so at lamport_max it raises after the change); with every domain present it is false exactly when the guard is not met |
| Cli.SafeOnStaysSafeAction | usp_cli.py:105-109 | changes nothing; false exactly when not SAFE_ON; in SAFE_ON it answers true exactly when the invariant re-check passes and raises exactly what that re-check raises; true only with TypeOK and SafeState, and exactly then when every domain is present |
| Cli.IdleAction | usp_cli.py:111-113 | changes nothing; answers true exactly when the invariant re-check passes and otherwise raises what the re-check raises; with every domain present it does not raise exactly when TypeOK and SafeState hold |
| Cli.StepAction | usp_cli.py:115-131 | changes the variables exactly as halt_precedence does; an exception from halt_precedence is passed on unchanged; "halt_precedence" exactly when it fired; after a refusal it raises exactly when the invariant re-check fails, with that error, and otherwise answers "safe_on" in SAFE_ON and "idle" in OPERATIONAL, both with no change; from a sound machine it never raises and answers by the guard and the state |
| Cli.Apply | usp_cli.py:69-131 | whatever the machine, every action keeps SafeState, leaves a SAFE_ON machine unchanged, adds 1 to lamport exactly on the move to SAFE_ON, keeps epoch and timer, only appends votes, and a vote map with at most 2 votes per domain stays so; from a sound machine no action raises and the machine stays sound |
| Cli.RunKeepsSafeState | usp_cli.py:56-61 | SafeState holds after every sequence of actions that starts from it, with no other assumption on the machine: not TypeOK, not every domain present, not lamport below its bound |
| Cli.SafeOnIsFinal | usp_cli.py:92-97 | once SAFE_ON, even with lamport past its bound, no sequence of actions changes any variable |
| Cli.RunCountsTransition | usp_cli.py:97-98 | over any run the state never returns to OPERATIONAL, and lamport grows by exactly 1 if the run moved to SAFE_ON and by 0 otherwise |
| Cli.RunGrowsVotes | usp_cli.py:82-86 | over any run the vote keys stay the same, every sequence is only extended, a vote map with at most 2 votes per entry stays so, and epoch and the timer never change |
| Cli.RunStaysSound | usp_cli.py:63-65 | a sound machine (TypeOK, all domains present, SafeState, room for the increment while OPERATIONAL) stays sound over any run, so nothing along it raises |
| Cli.OverflowBreaksTypeOK | usp_cli.py:95-100 | with the guard met at lamport_max, halt_precedence sets SAFE_ON and lamport_max + 1 and then raises the TypeOK failure, SafeState still holding; the machine stays so under every later action, and idle raises from then on |
| Cli.DefaultConstruction | usp_cli.py:36-39 | without overrides every domain gets an empty sequence; construction succeeds exactly when both bounds are ≥ 0; the result is sound when lamport_max > 0 |
| Cli.KeyErrorDespiteWitness | usp_cli.py:56-61 | the SafeState search is ordered: with domains A then B, a SAFE_ON machine whose only entry is a HALT vote in B satisfies TypeOK and SafeState, yet idle raises a KeyError for A |
| Cli.MissingDomainRaises | usp_cli.py:46-54 | the weaker TypeOK accepts a vote map without the configured domains, and a valid vote in such a domain then raises a KeyError instead of returning false |
| Cli.UspVirel.constructor | usp_cli.py:36-39 | the new machine holds the seeded variables |
| Cli.UspVirel.Create | usp_cli.py:36-39 | construction succeeds exactly when the seeded variables satisfy the weaker TypeOK, and raises the TypeOK failure otherwise |
| Cli.UspVirel.AssertInvariants | usp_cli.py:63-65 | the check with its in-order search for a HALT vote answers as InvariantCheck |
| Cli.UspVirel.CastVote | usp_cli.py:69-89 | the reply and the new fields are those of CastVoteAction on the old fields |
| Cli.UspVirel.HaltPrecedence | usp_cli.py:91-103 | the loop over the domains with its early return gives the reply and new fields of HaltPrecedenceAction, including the change made before an overflow is reported |
| Cli.UspVirel.SafeOnStaysSafe | usp_cli.py:105-109 | changes no field and answers as SafeOnStaysSafeAction |
| Cli.UspVirel.Idle | usp_cli.py:111-113 | changes no field and answers as IdleAction |
| Cli.UspVirel.Step | usp_cli.py:115-131 | the reply tag and the new fields are those of StepAction |
| Compare.TypeOKRefines | usp_cli.py:46-54 | the command-line TypeOK (counters in bounds, only configured tokens, no check of the domain keys or the timer's sign) is the reference TypeOK without its key and timer checks |
| Compare.CastVoteAgrees | usp_cli.py:69-89 | on a machine with the reference TypeOK, a valid vote has the same reply and effect in both copies; an unknown domain or token is refused with no change by one and raises with no change in the other |
| Compare.IdleAgrees | usp_cli.py:111-113 | on a machine with the reference TypeOK, idle changes nothing in either copy and one raises exactly when the other does |
| Compare.SafeOnStaysSafeAgrees | usp_cli.py:105-109 | on a machine with the reference TypeOK, safe_on_stays_safe changes nothing in either copy, and both return the same value or both raise |
| Compare.AutoStepAgrees | usp_cli.py:115-131 | on a machine with the reference TypeOK and lamport below its bound, step and auto_step move to the same variables and one raises exactly when the other does |
| Compare.HaltPrecedenceAgrees | usp_cli.py:91-103 | below the lamport bound both copies give the same reply and the same new variables; at the bound with the guard met, the reference raises before any change while the command-line copy moves to SAFE_ON with lamport_max + 1 and then raises |

## Left out

- The console trace (`print`) of both copies. That includes the CAST and
  HALT QUORUM events and the refusal messages of `usp_cli.py`. It is output
  only: no returned value or variable depends on it.
- `__repr__` in `USP-VIREL.py` and `show` in `usp_cli.py`, which only format
  the variables for display. The rest of `usp_cli.py` after `show` is not
  part of this model; it is the interactive driver.
- `hold_ms`, `epoch` and `provisional_timer` are kept as inert fields. No
  action changes them, and none is invented.
- Python's run-time type checks (`isinstance`, a `state` string outside the
  two phases). Dafny's types make them hold, so a `state` value other than
  OPERATIONAL or SAFE_ON cannot be represented.
- Aliasing. The source appends in place to the lists of a dictionary that
  the caller may have supplied and still hold. The model replaces the
  domain's sequence in the `quorumVotes` map, so a caller's copy is not
  seen to change. Two domains can share one list in a supplied map. In the
  source, one `append` (USP-VIREL.py:126, usp_cli.py:86) then grows both
  domains. The model appends to the voted domain only. The "that domain
  alone" clauses of both CastVoteActions rely on this.
- Optimised Python runs (`python -O`). The model assumes assertions are
  enabled, so every `assert` of the TypeOK checks (USP-VIREL.py:60-74,
  usp_cli.py:47-54) raises when it fails. Under `-O` those checks vanish
  and only the explicit `raise AssertionError` lines (USP-VIREL.py:84, 154;
  usp_cli.py:59) remain. Construction would then accept negative bounds,
  and the overflow of `usp_cli.py` at lamport_max would pass silently.
- Mutation of the configuration lists. `USPVirelConfig` is frozen, but its
  `domains` and `tokens` are mutable lists (USP-VIREL.py:14-15,
  usp_cli.py:16-17). The model assumes nobody changes them after
  construction: `cfg` is a constant value. A caller who edits them would
  change what later checks and guards accept.
- The nondeterministic CastVote branch of the protocol's next-state
  relation. The source deliberately leaves it out of `auto_step`/`step`,
  and so does the model.
- Reference.UspVirel.CastVote, Reference.UspVirel.HaltPrecedence: the
  TypeOK and SafeState re-checks after the mutation are not run-time
  branches. The action functions prove that both hold afterwards, so these
  checks cannot raise.
