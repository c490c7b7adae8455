/** The commercial paper state and its commands (CommercialPaper.State and
    CommercialPaper.Commands). */
module PaperState {
  import opened Base

  /** A dated bearer instrument: who issued it, who owns it now, what it pays
      and when it matures. */
  datatype State = State(issuance: PartyAndReference, owner: Party, faceValue: IssuedAmount, maturityDate: int)

  /** The intents of a commercial paper transaction.  `Other` stands for any
      further implementation of the open `Commands` interface. */
  datatype Commands = Issue | Move | Redeem | Other

  datatype CommandAndState = CommandAndState(command: Commands, ownableState: State)

  /** Two states are the same lineage when they agree on every field but the owner. */
  predicate SameLineage(s: State, t: State) {
    s.issuance == t.issuance && s.faceValue == t.faceValue && s.maturityDate == t.maturityDate
  }

  /** The grouping key: the state with its owner blanked out. */
  function WithoutOwner(s: State): (r: State)
    ensures r.owner == NullParty && SameLineage(r, s)
  {
    s.(owner := NullParty)
  }

  /** The ownership change: a `Move` command and the same paper under a new owner. */
  function WithNewOwner(s: State, newOwner: Party): (r: CommandAndState)
    ensures r.command == Move
    ensures r.ownableState.owner == newOwner && SameLineage(r.ownableState, s)
  {
    CommandAndState(Move, s.(owner := newOwner))
  }

  /** The grouping key identifies exactly the lineage. */
  lemma WithoutOwnerIsLineage(s: State, t: State)
    ensures WithoutOwner(s) == WithoutOwner(t) <==> SameLineage(s, t)
  {
  }

  /** Moving a paper keeps it in its group, and blanking the owner twice is blanking it once. */
  lemma WithNewOwnerKeepsGroup(s: State, newOwner: Party)
    ensures WithoutOwner(WithNewOwner(s, newOwner).ownableState) == WithoutOwner(s)
    ensures WithoutOwner(WithoutOwner(s)) == WithoutOwner(s)
  {
  }
}
