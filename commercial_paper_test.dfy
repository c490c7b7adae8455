/** The ledger scenarios of the commercial paper unit tests, as lemmas about
    the contract's verdict on the transactions they build. */
module CommercialPaperTest {
  import opened Base
  import opened PaperState
  import opened Ledger
  import opened CommercialPaper

  const MegaCorp: Party := Party(PublicKey(1))
  const Alice: Party := Party(PublicKey(70))
  const MegaCorpRef: PartyAndReference := PartyAndReference(MegaCorp, [123])
  const USD: Currency := Currency("USD")

  /** 2015-04-17T12:00:00Z, in seconds. */
  const TEST_TX_TIME: int := 1429272000
  const DAY: int := 86400

  /** `timeWindow(TEST_TX_TIME)` in the ledger DSL: thirty seconds either side. */
  const TestWindow: TimeWindow := WithTolerance(TEST_TX_TIME, 30)

  /** `getPaper()`: $1000.00 issued by MegaCorp, maturing a week after the test time. */
  const TestPaper: State := State(MegaCorpRef, MegaCorp, Amount(100000, Issued(MegaCorpRef, USD)), TEST_TX_TIME + 7 * DAY)

  const PaperIn: PaperRef := StateAndRef(Paper(TestPaper), StateRef(1, 0))

  /** A paper input with no command fails `requireSingleCommand`. */
  lemma SimpleCPDoesntCompile()
    ensures Verify(Tx([PaperIn], [], [], None)) == Fail(MissingCommand(PaperCommands))
  {
    assert Select([], PaperCommands) == [];
  }

  /** A move without the moved paper among the outputs is not propagated; adding
      Alice's paper as the output makes it verify. */
  lemma SimpleCPMoveFailureAndSuccess()
    ensures Verify(Tx([PaperIn], [], [Command(CP(Move), [MegaCorp.owningKey])], None)) == Fail(Requirement(Propagated))
    ensures Verify(Tx([PaperIn], [Paper(PaperState.WithNewOwner(TestPaper, Alice).ownableState)],
                      [Command(CP(Move), [MegaCorp.owningKey])], None)) == Pass
  {
    var move := Command(CP(Move), [MegaCorp.owningKey]);
    var alicePaper := PaperState.WithNewOwner(TestPaper, Alice).ownableState;
    var tx1 := Tx([PaperIn], [], [move], None);
    var tx2 := Tx([PaperIn], [Paper(alicePaper)], [move], None);
    assert InputStates([PaperIn]) == [PaperIn.state];
    PaperStatesOfOne(PaperIn.state);
    PaperStatesOfOne(Paper(alicePaper));
    SelectOne(move, PaperCommands);
    VerifyUnfold(tx1);
    GroupsOfOneInput(TestPaper);
    CheckGroupsOne(Move, move.signers, InOutGroup([TestPaper], [], WithoutOwner(TestPaper)), tx1);
    VerifyUnfold(tx2);
    GroupsOfPair(TestPaper, alicePaper);
    CheckGroupsOne(Move, move.signers, InOutGroup([TestPaper], [alicePaper], WithoutOwner(TestPaper)), tx2);
  }

  /** The issuance of the test paper under one signer is the issue rules
      applied to its one group. */
  lemma IssuanceOfTestPaper(signer: Party)
    ensures var tx := Tx([], [Paper(TestPaper)], [Command(CP(Issue), [signer.owningKey])], Some(TestWindow));
            Verify(tx) == CheckIssue(InOutGroup([], [TestPaper], WithoutOwner(TestPaper)), Some(TestWindow), [signer.owningKey])
  {
    var cmd := Command(CP(Issue), [signer.owningKey]);
    var tx := Tx([], [Paper(TestPaper)], [cmd], Some(TestWindow));
    PaperStatesOfOne(Paper(TestPaper));
    SelectOne(cmd, PaperCommands);
    GroupsOfOneOutput(TestPaper);
    VerifyUnfold(tx);
    CheckGroupsOne(Issue, cmd.signers, InOutGroup([], [TestPaper], WithoutOwner(TestPaper)), tx);
  }

  /** Issued under Alice's signature the paper fails the issuer rule. */
  lemma SimpleIssuanceWithTweak()
    ensures Verify(Tx([], [Paper(TestPaper)], [Command(CP(Issue), [Alice.owningKey])], Some(TestWindow)))
            == Fail(Requirement(IssuedBySigner))
  {
    IssuanceOfTestPaper(Alice);
  }

  /** Issued under MegaCorp's signature it verifies. */
  lemma SimpleIssuance()
    ensures Verify(Tx([], [Paper(TestPaper)], [Command(CP(Issue), [MegaCorp.owningKey])], Some(TestWindow))) == Pass
  {
    IssuanceOfTestPaper(MegaCorp);
  }

  /** "Trade to Alice": the paper and Alice's $900 in, $900 to MegaCorp and
      the paper to Alice out, a cash move signed by Alice and a paper move
      signed by MegaCorp.  The commercial paper contract accepts it. */
  lemma ChainCommercialPaperTradeToAlice()
    ensures var aliceCash := StateAndRef(Cash(Amount(90000, Issued(MegaCorpRef, USD)), Alice), StateRef(0, 0));
            Verify(Tx([PaperIn, aliceCash],
                      [Cash(Amount(90000, Issued(MegaCorpRef, USD)), MegaCorp), Paper(PaperState.WithNewOwner(TestPaper, Alice).ownableState)],
                      [Command(CashMove, [Alice.owningKey]), Command(CP(Move), [MegaCorp.owningKey])], None)) == Pass
  {
    var aliceCash := StateAndRef(Cash(Amount(90000, Issued(MegaCorpRef, USD)), Alice), StateRef(0, 0));
    var borrowed := Cash(Amount(90000, Issued(MegaCorpRef, USD)), MegaCorp);
    var alicePaper := PaperState.WithNewOwner(TestPaper, Alice).ownableState;
    var cashMove := Command(CashMove, [Alice.owningKey]);
    var move := Command(CP(Move), [MegaCorp.owningKey]);
    var tx := Tx([PaperIn, aliceCash], [borrowed, Paper(alicePaper)], [cashMove, move], None);
    assert InputStates([PaperIn, aliceCash]) == [PaperIn.state] + [aliceCash.state];
    PaperStatesOfConcat([PaperIn.state], [aliceCash.state]);
    PaperStatesOfOne(PaperIn.state);
    PaperStatesOfOne(aliceCash.state);
    assert PaperInputs(tx) == [TestPaper];
    assert [borrowed, Paper(alicePaper)] == [borrowed] + [Paper(alicePaper)];
    PaperStatesOfConcat([borrowed], [Paper(alicePaper)]);
    PaperStatesOfOne(borrowed);
    PaperStatesOfOne(Paper(alicePaper));
    assert PaperOutputs(tx) == [alicePaper];
    assert [cashMove, move] == [cashMove] + [move];
    SelectConcat([cashMove], [move], PaperCommands);
    SelectOne(cashMove, PaperCommands);
    SelectOne(move, PaperCommands);
    VerifyUnfold(tx);
    GroupsOfPair(TestPaper, alicePaper);
    CheckGroupsOne(Move, move.signers, InOutGroup([TestPaper], [alicePaper], WithoutOwner(TestPaper)), tx);
  }
}
