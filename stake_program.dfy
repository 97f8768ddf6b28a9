/** The stake-program instruction builders: for each operation, the ordered
    account list with its signer and writable flags, the target program and the
    encoded data, plus the transactions that compose them. */
module StakeProgram {
  import opened Primitives
  import opened StakeInstructions

  // Well-known addresses, as the raw bytes of their base58 names.

  /** StakeConfig11111111111111111111111111111111 */
  const CONFIG_STAKE_PUBKEY: PublicKey :=
    [6, 161, 216, 23, 165, 2, 5, 11, 104, 7, 145, 230, 206, 109, 184, 142,
     30, 91, 113, 80, 246, 31, 198, 121, 10, 78, 180, 209, 0, 0, 0, 0]

  /** 11111111111111111111111111111111: the System program. */
  const SYS_PROGRAM_ID: PublicKey :=
    [0, 0, 0, 0, 0, 0, 0, 0, 0, 0, 0, 0, 0, 0, 0, 0,
     0, 0, 0, 0, 0, 0, 0, 0, 0, 0, 0, 0, 0, 0, 0, 0]

  /** Stake11111111111111111111111111111111111111: the Stake program. */
  const STAKE_PROGRAM_ID: PublicKey :=
    [6, 161, 216, 23, 145, 55, 84, 42, 152, 52, 55, 189, 254, 42, 122, 178,
     85, 127, 83, 92, 138, 120, 114, 43, 104, 164, 157, 192, 0, 0, 0, 0]

  /** SysvarC1ock11111111111111111111111111111111 */
  const SYSVAR_CLOCK_PUBKEY: PublicKey :=
    [6, 167, 213, 23, 24, 199, 116, 201, 40, 86, 99, 152, 105, 29, 94, 182,
     139, 94, 184, 163, 155, 75, 109, 92, 115, 85, 91, 33, 0, 0, 0, 0]

  /** SysvarRent111111111111111111111111111111111 */
  const SYSVAR_RENT_PUBKEY: PublicKey :=
    [6, 167, 213, 23, 25, 44, 92, 81, 33, 140, 201, 76, 61, 74, 241, 127,
     88, 218, 238, 8, 155, 161, 253, 68, 227, 219, 217, 138, 0, 0, 0, 0]

  /** SysvarStakeHistory1111111111111111111111111 */
  const SYSVAR_STAKE_HISTORY_PUBKEY: PublicKey :=
    [6, 167, 213, 23, 25, 53, 132, 208, 254, 237, 155, 179, 67, 29, 19, 32,
     107, 229, 68, 40, 27, 87, 184, 86, 108, 197, 55, 95, 244, 0, 0, 0]

  /** Bytes requested for a new stake account. */
  const STAKE_ACCOUNT_SPACE: nat := 200

  /** One account reference of an instruction. */
  datatype AccountMeta = AccountMeta(pubkey: PublicKey, isSigner: bool, isWritable: bool)

  /** The parameters handed to the System program's create_account. */
  datatype CreateAccountParams = CreateAccountParams(
    fromPubkey: PublicKey, newAccountPubkey: PublicKey, lamports: int, space: nat, programId: PublicKey)

  /** The parameters handed to the System program's create_account_with_seed. */
  datatype CreateAccountWithSeedParams = CreateAccountWithSeedParams(
    fromPubkey: PublicKey, newAccountPubkey: PublicKey, basePubkey: PublicKey, seed: string,
    lamports: int, space: nat, programId: PublicKey)

  /** An instruction: one assembled here, or one of the System program's account
      allocations, which stands for the instruction built from its parameters. */
  datatype TransactionInstruction =
    | Instruction(keys: seq<AccountMeta>, programId: PublicKey, data: seq<byte>)
    | CreateAccount(createParams: CreateAccountParams)
    | CreateAccountWithSeed(seedParams: CreateAccountWithSeedParams)

  /** A transaction: an optional fee payer and the instructions in the order added. */
  datatype Transaction = Transaction(feePayer: Option<PublicKey>, instructions: seq<TransactionInstruction>)

  datatype InitializeStakeParams = InitializeStakeParams(
    fromPubkey: PublicKey, stakePubkey: PublicKey, authorized: Authorized, lockup: Lockup)

  datatype DelegateStakeParams = DelegateStakeParams(
    stakePubkey: PublicKey, authorizedPubkey: PublicKey, votePubkey: PublicKey)

  datatype DeactivateStakeParams = DeactivateStakeParams(stakePubkey: PublicKey, authorizedPubkey: PublicKey)

  datatype WithdrawStakeParams = WithdrawStakeParams(
    stakePubkey: PublicKey, withdrawerPubkey: PublicKey, toPubkey: PublicKey, lamports: int,
    custodianPubkey: PublicKey)

  /** The four parameter records an account-creating operation accepts. */
  datatype StakeAccountParams =
    | CreateStakeAccountParams(
        fromPubkey: PublicKey, stakePubkey: PublicKey, authorized: Authorized, lockup: Lockup, lamports: int)
    | CreateStakeAccountWithSeedParams(
        fromPubkey: PublicKey, stakePubkey: PublicKey, basePubkey: PublicKey, seed: string,
        authorized: Authorized, lockup: Lockup, lamports: int)
    | CreateAccountAndDelegateStakeParams(
        fromPubkey: PublicKey, stakePubkey: PublicKey, votePubkey: PublicKey,
        authorized: Authorized, lockup: Lockup, lamports: int)
    | CreateAccountWithSeedAndDelegateStakeParams(
        fromPubkey: PublicKey, stakePubkey: PublicKey, basePubkey: PublicKey, seed: string,
        votePubkey: PublicKey, authorized: Authorized, lockup: Lockup, lamports: int)

  /** The (signer, writable) pair of each account slot, in order. */
  function Flags(keys: seq<AccountMeta>): (f: seq<(bool, bool)>)
    ensures |f| == |keys|
    ensures forall i | 0 <= i < |keys| :: f[i] == (keys[i].isSigner, keys[i].isWritable)
  {
    seq(|keys|, i requires 0 <= i < |keys| => (keys[i].isSigner, keys[i].isWritable))
  }

  /** The six well-known addresses, in declaration order. */
  function WellKnownKeys(): seq<PublicKey>
  {
    [CONFIG_STAKE_PUBKEY, SYS_PROGRAM_ID, STAKE_PROGRAM_ID,
     SYSVAR_CLOCK_PUBKEY, SYSVAR_RENT_PUBKEY, SYSVAR_STAKE_HISTORY_PUBKEY]
  }

  /** The six well-known addresses are pairwise distinct. */
  lemma WellKnownKeysDistinct()
    ensures forall i, j | 0 <= i < j < |WellKnownKeys()| :: WellKnownKeys()[i] != WellKnownKeys()[j]
  {
    var k := WellKnownKeys();
    // Byte 1 separates the config address, the System program, the Stake program and the
    // sysvars; byte 4 separates the clock from the other two sysvars, byte 5 rent from history.
    assert k[0][1] == 161 && k[1][1] == 0 && k[2][1] == 161 && k[3][1] == 167 && k[4][1] == 167 && k[5][1] == 167;
    assert k[0][4] == 165 && k[2][4] == 145;
    assert k[3][4] == 24 && k[4][4] == 25 && k[5][4] == 25;
    assert k[4][5] == 44 && k[5][5] == 53;
  }

  /** The Initialize instruction: fails exactly when the lockup's integers do not fit. */
  function InitializeStake(p: InitializeStakeParams): (r: Result<TransactionInstruction, BuildError>)
    ensures r.Ok? <==> LockupInRange(p.lockup)
    ensures r.Ok? ==> r.value.Instruction? && r.value.programId == STAKE_PROGRAM_ID
    ensures r.Ok? ==> r.value.keys == [AccountMeta(p.stakePubkey, true, true),
                                       AccountMeta(SYSVAR_RENT_PUBKEY, false, false)]
    ensures r.Ok? ==> Parse(r.value.data) == Ok(Container(0, InitializeArgs(p.authorized, p.lockup)))
  {
    var c := Container(Discriminant(InitializeStakeAccount), InitializeArgs(p.authorized, p.lockup));
    match Build(c)
    case Err(e) => Err(e)
    case Ok(data) =>
      RoundTrip(c);
      Ok(Instruction(
           [AccountMeta(p.stakePubkey, true, true), AccountMeta(SYSVAR_RENT_PUBKEY, false, false)],
           STAKE_PROGRAM_ID, data))
  }

  /** The Delegate instruction: six accounts with the authority as the only signer, last. */
  function DelegateStakeInstruction(p: DelegateStakeParams): (ix: TransactionInstruction)
    ensures ix.Instruction? && ix.programId == STAKE_PROGRAM_ID
    ensures |ix.keys| == 6
    ensures ix.keys[0].pubkey == p.stakePubkey && ix.keys[1].pubkey == p.votePubkey
    ensures ix.keys[2].pubkey == SYSVAR_CLOCK_PUBKEY && ix.keys[3].pubkey == SYSVAR_STAKE_HISTORY_PUBKEY
    ensures ix.keys[4].pubkey == CONFIG_STAKE_PUBKEY && ix.keys[5].pubkey == p.authorizedPubkey
    ensures Flags(ix.keys) == [(false, true), (false, false), (false, false),
                               (false, false), (false, false), (true, false)]
    ensures forall i | 0 <= i < |ix.keys| :: ix.keys[i].isSigner <==> i == 5
    ensures ix.data == [1, 0, 0, 0]
  {
    var data := Build(Container(Discriminant(DelegateStake), NoArgs));
    DelegateEncoding(NoArgs);
    Instruction(
      [AccountMeta(p.stakePubkey, false, true),
       AccountMeta(p.votePubkey, false, false),
       AccountMeta(SYSVAR_CLOCK_PUBKEY, false, false),
       AccountMeta(SYSVAR_STAKE_HISTORY_PUBKEY, false, false),
       AccountMeta(CONFIG_STAKE_PUBKEY, false, false),
       AccountMeta(p.authorizedPubkey, true, false)],
      STAKE_PROGRAM_ID, data.value)
  }

  /** A transaction holding the Delegate instruction alone. */
  function DelegateStakeTransaction(p: DelegateStakeParams): (tx: Transaction)
    ensures tx.feePayer.None?
    ensures |tx.instructions| == 1 && tx.instructions[0] == DelegateStakeInstruction(p)
  {
    Transaction(None, [DelegateStakeInstruction(p)])
  }

  /** The Deactivate instruction: three accounts and the bare discriminant 2. */
  function DeactivateStakeInstruction(p: DeactivateStakeParams): (ix: TransactionInstruction)
    ensures ix.Instruction? && ix.programId == STAKE_PROGRAM_ID
    ensures ix.keys == [AccountMeta(p.stakePubkey, false, true),
                        AccountMeta(SYSVAR_CLOCK_PUBKEY, false, false),
                        AccountMeta(p.authorizedPubkey, true, false)]
    ensures forall i | 0 <= i < |ix.keys| :: ix.keys[i].isSigner <==> i == 2
    ensures ix.data == [2, 0, 0, 0]
    ensures Parse(ix.data) == Ok(Container(Discriminant(Deactivate), NoArgs))
  {
    var c := Container(Discriminant(Deactivate), NoArgs);
    var data := Build(c);
    DeactivateEncoding(NoArgs);
    RoundTrip(c);
    Instruction(
      [AccountMeta(p.stakePubkey, false, true),
       AccountMeta(SYSVAR_CLOCK_PUBKEY, false, false),
       AccountMeta(p.authorizedPubkey, true, false)],
      STAKE_PROGRAM_ID, data.value)
  }

  /** A transaction holding the Deactivate instruction alone. */
  function DeactivateStakeTransaction(p: DeactivateStakeParams): (tx: Transaction)
    ensures tx.feePayer.None?
    ensures |tx.instructions| == 1 && tx.instructions[0] == DeactivateStakeInstruction(p)
  {
    Transaction(None, [DeactivateStakeInstruction(p)])
  }

  /** The Withdraw instruction, with the account list and target program exactly as
      written: the stake account, then the destination four times, to the System program. */
  function WithdrawStakeInstruction(p: WithdrawStakeParams): (r: Result<TransactionInstruction, BuildError>)
    ensures r.Ok? <==> IsU64(p.lamports)
    ensures r.Ok? ==> r.value.Instruction? && r.value.programId == SYS_PROGRAM_ID
    ensures r.Ok? ==> r.value.keys == [AccountMeta(p.stakePubkey, true, true)] +
                                      seq(4, _ => AccountMeta(p.toPubkey, false, true))
    ensures r.Ok? ==> |r.value.data| == 12 &&
                      Parse(r.value.data) == Ok(Container(Discriminant(WithdrawStake), WithdrawArgs(p.lamports)))
  {
    var c := Container(Discriminant(WithdrawStake), WithdrawArgs(p.lamports));
    match Build(c)
    case Err(e) => Err(e)
    case Ok(data) =>
      RoundTrip(c);
      var keys := [AccountMeta(p.stakePubkey, true, true),
                   AccountMeta(p.toPubkey, false, true),
                   AccountMeta(p.toPubkey, false, true),
                   AccountMeta(p.toPubkey, false, true),
                   AccountMeta(p.toPubkey, false, true)];
      assert keys == [AccountMeta(p.stakePubkey, true, true)] + seq(4, _ => AccountMeta(p.toPubkey, false, true));
      Ok(Instruction(keys, SYS_PROGRAM_ID, data))
  }

  /** Whether the params name a base key and seed, i.e. are not one of the unseeded records. */
  predicate IsSeeded(p: StakeAccountParams)
  {
    !(p.CreateStakeAccountParams? || p.CreateAccountAndDelegateStakeParams?)
  }

  /** The account allocation: 200 bytes owned by the Stake program, funded with the
      params' lamports, seeded exactly when the params carry a base key and seed. */
  function CreateStakeAccountInstruction(p: StakeAccountParams): (ix: TransactionInstruction)
    ensures ix.CreateAccountWithSeed? <==> IsSeeded(p)
    ensures ix.CreateAccount? <==> !IsSeeded(p)
    ensures ix.CreateAccount? ==>
              ix.createParams == CreateAccountParams(p.fromPubkey, p.stakePubkey, p.lamports,
                                                     STAKE_ACCOUNT_SPACE, STAKE_PROGRAM_ID)
    ensures ix.CreateAccountWithSeed? ==>
              ix.seedParams == CreateAccountWithSeedParams(p.fromPubkey, p.stakePubkey, p.basePubkey, p.seed,
                                                           p.lamports, STAKE_ACCOUNT_SPACE, STAKE_PROGRAM_ID)
  {
    if p.CreateStakeAccountParams? || p.CreateAccountAndDelegateStakeParams? then
      CreateAccount(CreateAccountParams(
                      p.fromPubkey, p.stakePubkey, p.lamports, STAKE_ACCOUNT_SPACE, STAKE_PROGRAM_ID))
    else
      CreateAccountWithSeed(CreateAccountWithSeedParams(
                              p.fromPubkey, p.stakePubkey, p.basePubkey, p.seed,
                              p.lamports, STAKE_ACCOUNT_SPACE, STAKE_PROGRAM_ID))
  }

  /** The account an allocation instruction creates, if it is one. */
  function AllocatedAccount(ix: TransactionInstruction): Option<PublicKey>
  {
    match ix
    case CreateAccount(cp) => Some(cp.newAccountPubkey)
    case CreateAccountWithSeed(sp) => Some(sp.newAccountPubkey)
    case Instruction(_, _, _) => None
  }

  /** The Initialize instruction a create operation builds for its new account. */
  function InitializeFor(p: StakeAccountParams): Result<TransactionInstruction, BuildError>
  {
    InitializeStake(InitializeStakeParams(p.fromPubkey, p.stakePubkey, p.authorized, p.lockup))
  }

  /** Allocation then initialization of one stake account, with no fee payer set. */
  function CreateStakeAccount(p: StakeAccountParams): (r: Result<Transaction, BuildError>)
    ensures r.Ok? <==> LockupInRange(p.lockup)
    ensures r.Ok? ==> r.value.feePayer.None? && |r.value.instructions| == 2
    ensures r.Ok? ==> r.value.instructions[0] == CreateStakeAccountInstruction(p)
    ensures r.Ok? ==> r.value.instructions[1] == InitializeFor(p).value
  {
    match InitializeFor(p)
    case Err(e) => Err(e)
    case Ok(initialize) => Ok(Transaction(None, [CreateStakeAccountInstruction(p), initialize]))
  }

  /** Whether the params are one of the two create-and-delegate records. */
  predicate IsDelegating(p: StakeAccountParams)
  {
    p.CreateAccountAndDelegateStakeParams? || p.CreateAccountWithSeedAndDelegateStakeParams?
  }

  /** Create-and-delegate as intended (the code itself raises before returning):
      fee payer set, but only allocation and initialization are added; no
      Delegate instruction is. */
  function CreateAccountAndDelegateStake(p: StakeAccountParams): (r: Result<Transaction, BuildError>)
    requires IsDelegating(p)
    ensures r.Ok? <==> LockupInRange(p.lockup)
    ensures r.Ok? ==> r.value.feePayer == Some(p.fromPubkey) && |r.value.instructions| == 2
    ensures r.Ok? ==> r.value.instructions[0] == CreateStakeAccountInstruction(p)
    ensures r.Ok? ==> r.value.instructions[1] == InitializeFor(p).value
  {
    match InitializeFor(p)
    case Err(e) => Err(e)
    case Ok(initialize) => Ok(Transaction(Some(p.fromPubkey), [CreateStakeAccountInstruction(p), initialize]))
  }

  /** Whether an instruction is a Delegate instruction of the Stake program. */
  predicate IsDelegate(ix: TransactionInstruction)
  {
    ix.Instruction? && ix.programId == STAKE_PROGRAM_ID &&
    Parse(ix.data).Ok? && Parse(ix.data).value.instructionType == Discriminant(DelegateStake)
  }

  // ---- Properties relating several calls ----

  /** Initialize's data has staker at bytes 4-35, withdrawer at 36-67 and the lockup after. */
  lemma InitializeStakeData(p: InitializeStakeParams)
    requires LockupInRange(p.lockup)
    ensures var d := InitializeStake(p).value.data;
            |d| == 116 && d[..4] == [0, 0, 0, 0] &&
            d[4..36] == p.authorized.staker && d[36..68] == p.authorized.withdrawer &&
            d[68..76] == I64Le(p.lockup.unixTimestamp) && d[76..84] == U64Le(p.lockup.epoch) &&
            d[84..116] == p.lockup.custodian
  {
    InitializeEncoding(p.authorized, p.lockup);
  }

  /** The allocation comes first and both instructions address the same new stake account. */
  lemma CreateStakeAccountOrder(p: StakeAccountParams)
    requires CreateStakeAccount(p).Ok?
    ensures var ixs := CreateStakeAccount(p).value.instructions;
            AllocatedAccount(ixs[0]) == Some(p.stakePubkey) &&
            ixs[1].Instruction? && ixs[1].keys[0].pubkey == p.stakePubkey &&
            ixs[1].keys[0].isSigner && ixs[1].keys[0].isWritable &&
            AllocatedAccount(ixs[1]).None?
  {
  }

  /** The dropped delegate step: no instruction of create-and-delegate is a Delegate instruction. */
  lemma CreateAccountAndDelegateStakeOmitsDelegate(p: StakeAccountParams)
    requires IsDelegating(p) && CreateAccountAndDelegateStake(p).Ok?
    ensures forall ix | ix in CreateAccountAndDelegateStake(p).value.instructions :: !IsDelegate(ix)
  {
    var ixs := CreateAccountAndDelegateStake(p).value.instructions;
    var init := ixs[1];
    assert Parse(init.data).value.instructionType == 0;
  }

  /** Create-and-delegate differs from create only in setting the fee payer. */
  lemma CreateAccountAndDelegateStakeIsCreate(p: StakeAccountParams)
    requires IsDelegating(p)
    ensures CreateAccountAndDelegateStake(p).Ok? <==> CreateStakeAccount(p).Ok?
    ensures CreateAccountAndDelegateStake(p).Ok? ==>
              CreateAccountAndDelegateStake(p).value ==
              CreateStakeAccount(p).value.(feePayer := Some(p.fromPubkey))
  {
  }

  /** Withdraw's literal quirks: it reads neither the withdrawer nor the custodian key,
      and it is not addressed to the Stake program. */
  lemma WithdrawStakeQuirks(p: WithdrawStakeParams, withdrawer: PublicKey, custodian: PublicKey)
    ensures WithdrawStakeInstruction(p) == WithdrawStakeInstruction(p.(withdrawerPubkey := withdrawer, custodianPubkey := custodian))
    ensures WithdrawStakeInstruction(p).Ok? ==> WithdrawStakeInstruction(p).value.programId != STAKE_PROGRAM_ID
  {
    WellKnownKeysDistinct();
  }

  /** Initialize's slot flags, whatever the parameters. */
  lemma InitializeFlags(p: InitializeStakeParams)
    requires InitializeStake(p).Ok?
    ensures Flags(InitializeStake(p).value.keys) == [(true, true), (false, false)]
  {
    var f := Flags(InitializeStake(p).value.keys);
    assert f[0] == (true, true) && f[1] == (false, false);
  }

  /** Withdraw's slot flags, whatever the parameters. */
  lemma WithdrawFlags(p: WithdrawStakeParams)
    requires WithdrawStakeInstruction(p).Ok?
    ensures Flags(WithdrawStakeInstruction(p).value.keys) ==
            [(true, true), (false, true), (false, true), (false, true), (false, true)]
  {
    var k := WithdrawStakeInstruction(p).value.keys;
    var f := Flags(k);
    assert |f| == 5;
    assert f[0] == (true, true);
    assert forall i | 1 <= i < 5 :: k[i] == AccountMeta(p.toPubkey, false, true);
  }

  /** Deactivate's slot flags, whatever the parameters. */
  lemma DeactivateFlags(p: DeactivateStakeParams)
    ensures Flags(DeactivateStakeInstruction(p).keys) == [(false, true), (false, false), (true, false)]
  {
    var f := Flags(DeactivateStakeInstruction(p).keys);
    assert f[0] == (false, true) && f[1] == (false, false) && f[2] == (true, false);
  }

  /** The account lists' lengths and flags depend on no parameter value. */
  lemma AccountShapesAreFixed(
    i1: InitializeStakeParams, i2: InitializeStakeParams,
    w1: WithdrawStakeParams, w2: WithdrawStakeParams,
    d1: DelegateStakeParams, d2: DelegateStakeParams,
    x1: DeactivateStakeParams, x2: DeactivateStakeParams)
    requires InitializeStake(i1).Ok? && InitializeStake(i2).Ok?
    requires WithdrawStakeInstruction(w1).Ok? && WithdrawStakeInstruction(w2).Ok?
    ensures Flags(InitializeStake(i1).value.keys) == Flags(InitializeStake(i2).value.keys) == [(true, true), (false, false)]
    ensures Flags(WithdrawStakeInstruction(w1).value.keys) == Flags(WithdrawStakeInstruction(w2).value.keys)
                                               == [(true, true), (false, true), (false, true), (false, true), (false, true)]
    ensures Flags(DelegateStakeInstruction(d1).keys) == Flags(DelegateStakeInstruction(d2).keys)
    ensures Flags(DeactivateStakeInstruction(x1).keys) == Flags(DeactivateStakeInstruction(x2).keys)
                                                       == [(false, true), (false, false), (true, false)]
  {
    InitializeFlags(i1);
    InitializeFlags(i2);
    WithdrawFlags(w1);
    WithdrawFlags(w2);
    DeactivateFlags(x1);
    DeactivateFlags(x2);
  }
}
