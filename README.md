# Stake instruction codec and builders

A Dafny model of the staking part of a Solana client library. It has two layers.

- **The instruction layout** (`stake_instructions.dfy`, module `StakeInstructions`). It builds and parses instruction data. The data is a 4-byte unsigned little-endian instruction type: 0 Initialize, 1 Delegate, 2 Deactivate, 3 Withdraw. A payload follows, chosen by a switch table on that type. Initialize carries `Authorized` (staker and withdrawer keys) and `Lockup` (an i64 timestamp, a u64 epoch and a custodian key), 112 bytes in all. Withdraw carries a u64 `lamports`. Delegate carries nothing.
- **The instruction builders** (`stake_program.dfy`, module `StakeProgram`). There is one pure function per operation. Each one returns the ordered account list, with signer and writable flags, the target program and the encoded data. There are also the transactions for "create stake account" and "create account and delegate stake".

`primitives.dfy` (module `Primitives`) holds what both layers share:
- bytes, as integers 0..255;
- 32-byte public keys;
- `Option` and `Result`;
- the fixed-width little-endian integer fields: u32, u64, and i64 in two's complement.

Each field has its encoder, its decoder, and round-trip lemmas in both directions.

Conventions of the model:
- A value that does not fit its integer field makes the layout library raise. Here that is an `Err(IntegerOutOfRange)` result. So `Build`, `InitializeStake`, `WithdrawStakeInstruction` and the two composites return a `Result`.
- A key with no entry in the switch table gets the `Pass` layout, which reads and writes nothing. This is the default of the layout library's `Switch` when no default is given.
- Parsing reads the discriminant and the payload it selects, and leaves any further bytes unread.
- The sysvar and program-id constants are the raw bytes of their base58 names, written out. Only the fact that they are pairwise distinct is used (`WellKnownKeysDistinct`).
- The System program's `create_account` and `create_account_with_seed` are foreign calls. Their result is modelled as the instruction constructors `CreateAccount` and `CreateAccountWithSeed`, each holding the parameter record it was given.
- A `Transaction` is an optional fee payer and the instructions in the order they were added.
- The parameter records `Authorized` and `Lockup` (stake_program.py:22-36) are the layout's own records (`StakeInstructions.Authorized`, `StakeInstructions.Lockup`). A key is its raw bytes, so the `bytes(...)` conversion in `initialize_stake` changes nothing.

## Behaviour reproduced as written

The model keeps these behaviours exactly as the code has them, and a lemma exhibits each one.

- Deactivate (2) has no switch-table entry. It falls through to `Pass`, so its data is the bare discriminant `[2, 0, 0, 0]` (`DeactivateHasNoEntry`, `DeactivateEncoding`). This matches the empty payload intended by the protocol. It relies on the library's `Pass` default, not on a table entry.
- `withdraw_stake` lists the stake account (signer, writable) and then the destination four times (writable). It targets the System program, not the Stake program, and it never reads `withdrawer_pubkey` or `custodian_pubkey` (`WithdrawStakeInstruction`, `WithdrawStakeQuirks`).
- Parsing does not reject a discriminant outside the enumeration: `[FF FF FF FF]` parses as type 4294967295 with no payload (`UnknownDiscriminantAccepted`). It does not reject trailing bytes either (`ParseIgnoresTrailingBytes`). A strictly framed decoder would reject both; this one rejects only buffers that end too early.
- `create_stake_account` is annotated for the two create-account records only. The code uses nothing the two delegate records lack, so the model accepts all four records, as `_create_stake_account_instruction` does.

## Behaviour given as intended

- `create_account_and_delegate_stake` does not return as written. It builds `InitializeStakeParams` without the required `from_pubkey` (stake_program.py:193-197), which raises a type error. It then reads `params.authorized_pubkey`, which neither of its parameter records has (stake_program.py:206), which raises an attribute error. The model gives the result the code evidently aims at. That result keeps one quirk of the code: only the allocation and the Initialize instruction are added, and the Delegate instruction is never added (`CreateAccountAndDelegateStake`, `CreateAccountAndDelegateStakeOmitsDelegate`). The model requires one of the two create-and-delegate records, as the annotation at stake_program.py:189 does; line 207 reads `vote_pubkey`, which the other two records lack.

## Model

| member | source | states |
|---|---|---|
| Primitives.DecodeEncodeUnsigned | src/solana/_layouts/stake_instructions.py:4 | decoding the little-endian encoding of any x below 256^n in n bytes gives x back |
| Primitives.EncodeDecodeUnsigned | src/solana/_layouts/stake_instructions.py:4 | re-encoding the value of any byte string in its own width gives the same bytes |
| Primitives.DecodeUnsignedInjective | src/solana/_layouts/stake_instructions.py:4 | two byte strings of one width have equal little-endian values exactly when they are equal |
| Primitives.U32Le | src/solana/_layouts/stake_instructions.py:40 | an Int32ul field is 4 bytes whose little-endian value is the integer written |
| Primitives.U64Le | src/solana/_layouts/stake_instructions.py:26 | an Int64ul field is 8 bytes whose little-endian value is the integer written |
| Primitives.I64Le | src/solana/_layouts/stake_instructions.py:25 | an Int64sl field is 8 bytes holding v, or v + 2^64 when v is negative (two's complement) |
| Primitives.I64FromLe | src/solana/_layouts/stake_instructions.py:25 | reading an Int64sl field always gives a value in [-2^63, 2^63) |
| Primitives.I64RoundTrip | src/solana/_layouts/stake_instructions.py:25 | every i64 value read back from its encoding is the value written |
| Primitives.I64RoundTripBytes | src/solana/_layouts/stake_instructions.py:25 | every 8-byte string re-encodes from its i64 value to itself |
| Primitives.I64SignBit | src/solana/_layouts/stake_instructions.py:25 | an i64 is negative exactly when the top bit of its last byte is set |
| StakeInstructions.Discriminant | src/solana/_layouts/stake_instructions.py:10-16 | each of the four instruction types has a discriminant below 4 |
| StakeInstructions.InstructionTypeOf | src/solana/_layouts/stake_instructions.py:10-16 | an integer names an instruction type exactly when it is in 0..3, and the type found has that discriminant |
| StakeInstructions.InstructionTypeOfDiscriminant | src/solana/_layouts/stake_instructions.py:10-16 | looking up a type's discriminant gives back that type, so the discriminants are distinct |
| StakeInstructions.SwitchTable | src/solana/_layouts/stake_instructions.py:42-49 | the switch table has entries for keys 0, 1 and 3 and for no other key |
| StakeInstructions.SwitchCase | src/solana/_layouts/stake_instructions.py:42-49 | the switch selects the Initialize layout exactly for key 0, Withdraw exactly for key 3, and Pass otherwise |
| StakeInstructions.DeactivateHasNoEntry | src/solana/_layouts/stake_instructions.py:42-49 | Deactivate's discriminant has no table entry and falls through to Pass |
| StakeInstructions.InitializeWidthIsFieldSum | src/solana/_layouts/stake_instructions.py:19-33 | for every authorized and in-range lockup, the bytes the authorized and lockup layouts write together are exactly the Initialize payload width |
| StakeInstructions.BuildAuthorized | src/solana/_layouts/stake_instructions.py:19-22 | the authorized layout is 64 bytes: the staker's raw bytes, then the withdrawer's |
| StakeInstructions.BuildLockup | src/solana/_layouts/stake_instructions.py:24-28 | the lockup layout is 48 bytes: the i64 timestamp, the u64 epoch, then the custodian's raw bytes |
| StakeInstructions.Build | src/solana/_layouts/stake_instructions.py:39-50 | building succeeds exactly when every integer fits and the args suit the selected layout; the result is 4 + that layout's width bytes and starts with the u32 discriminant |
| StakeInstructions.Parse | src/solana/_layouts/stake_instructions.py:39-50 | parsing succeeds exactly when at least 4 + the selected payload width bytes are present, and its type is the little-endian value of the first 4 bytes |
| StakeInstructions.Normalized | src/solana/_layouts/stake_instructions.py:46 | parsing keeps the type, and keeps the args of every type the table gives a real layout |
| StakeInstructions.ParseBuild | src/solana/_layouts/stake_instructions.py:39-50 | parsing any built encoding gives back the container, with the args Pass ignores dropped |
| StakeInstructions.RoundTrip | src/solana/_layouts/stake_instructions.py:39-50 | every buildable Initialize, Delegate, Deactivate or Withdraw container with the args its layout expects parses back to itself |
| StakeInstructions.BuildParse | src/solana/_layouts/stake_instructions.py:39-50 | rebuilding any parsed container gives back exactly the bytes the parse read |
| StakeInstructions.ParseIgnoresTrailingBytes | src/solana/_layouts/stake_instructions.py:39-50 | bytes appended after a complete instruction do not change the parse |
| StakeInstructions.DiscriminantBytes | src/solana/_layouts/stake_instructions.py:40 | the first four bytes of every built instruction are its discriminant followed by three zero bytes |
| StakeInstructions.InitializeEncoding | src/solana/_layouts/stake_instructions.py:30-33 | Initialize builds exactly when the lockup fits; it is then 116 bytes with staker at 4-35, withdrawer at 36-67, timestamp at 68-75, epoch at 76-83 and custodian at 84-115 |
| StakeInstructions.DelegateEncoding | src/solana/_layouts/stake_instructions.py:46 | Delegate builds to exactly [1, 0, 0, 0] whatever args are given |
| StakeInstructions.DeactivateEncoding | src/solana/_layouts/stake_instructions.py:42-49 | Deactivate, having no table entry, builds to exactly [2, 0, 0, 0] |
| StakeInstructions.WithdrawEncoding | src/solana/_layouts/stake_instructions.py:35-37 | Withdraw builds exactly when lamports is a u64; it is then 12 bytes, the discriminant then lamports in u64 little-endian |
| StakeInstructions.UnknownDiscriminantAccepted | src/solana/_layouts/stake_instructions.py:42-49 | a buffer holding the discriminant 0xFFFFFFFF parses, with no payload |
| StakeInstructions.ShortInitializeRejected | src/solana/_layouts/stake_instructions.py:30-33 | a buffer with discriminant 0 and fewer than 116 bytes fails to parse |
| StakeProgram.WellKnownKeysDistinct | src/solana/stake_program.py:11-18 | the six well-known addresses (stake config, System program, Stake program, clock, rent and stake-history sysvars) are pairwise distinct |
| StakeProgram.InitializeStake | src/solana/stake_program.py:251-282 | initialize targets the Stake program with [stake (signer, writable), rent sysvar (read-only)], and its data parses to Initialize with the given authorized and lockup; it fails exactly when the lockup's integers do not fit |
| StakeProgram.InitializeStakeData | src/solana/stake_program.py:253-271 | initialize's data is 116 bytes with staker, withdrawer, timestamp, epoch and custodian at their fixed offsets |
| StakeProgram.DelegateStakeInstruction | src/solana/stake_program.py:214-241 | delegate targets the Stake program with six accounts (stake writable, vote, clock, stake history, stake config, then the authority as the only signer), and its data is [1, 0, 0, 0] |
| StakeProgram.DelegateStakeTransaction | src/solana/stake_program.py:244-248 | delegate_stake's transaction holds exactly the one delegate instruction and no fee payer |
| StakeProgram.DeactivateStakeInstruction | src/solana/stake_program.py:331-354 | deactivate targets the Stake program with [stake (writable), clock (read-only), authority (signer)], and its data is [2, 0, 0, 0], which parses to type 2 |
| StakeProgram.DeactivateStakeTransaction | src/solana/stake_program.py:357-363 | deactivate_stake's transaction holds exactly the one deactivate instruction and no fee payer |
| StakeProgram.WithdrawStakeInstruction | src/solana/stake_program.py:158-186 | withdraw targets the System program with the stake account (signer, writable) and then the destination four times (writable); its 12-byte data parses to Withdraw of lamports; it fails exactly when lamports is not a u64 |
| StakeProgram.WithdrawStakeQuirks | src/solana/stake_program.py:158-186 | withdraw's result does not depend on the withdrawer or custodian key, and it is not addressed to the Stake program |
| StakeProgram.CreateStakeAccountInstruction | src/solana/stake_program.py:285-306 | the allocation asks for 200 bytes owned by the Stake program for the stake key, funded by from with lamports; it is seeded (base key and seed passed through) exactly when the params are not the unseeded records |
| StakeProgram.CreateStakeAccount | src/solana/stake_program.py:309-328 | create_stake_account gives two instructions, the allocation then initialize, with no fee payer; it fails exactly when initialize does |
| StakeProgram.CreateStakeAccountOrder | src/solana/stake_program.py:314-328 | the first instruction allocates the stake key, and that key is the second instruction's first account (signer, writable) |
| StakeProgram.CreateAccountAndDelegateStake | src/solana/stake_program.py:189-211 | for either create-and-delegate record, create-and-delegate gives two instructions, the allocation then initialize, with from as fee payer; it fails exactly when initialize does |
| StakeProgram.CreateAccountAndDelegateStakeIsCreate | src/solana/stake_program.py:189-211 | create-and-delegate equals create_stake_account with the fee payer set |
| StakeProgram.CreateAccountAndDelegateStakeOmitsDelegate | src/solana/stake_program.py:203-211 | no instruction create-and-delegate returns is a Delegate instruction |
| StakeProgram.AccountShapesAreFixed | src/solana/stake_program.py:170-181 | the account lists of initialize, withdraw, delegate and deactivate have a length and flags that depend on no parameter value |

## Left out

- Serialization and signing of transactions, instructions and account references are not modelled. These are external containers, so here they are plain records and sequences. `Transaction.add` is modelled as appending in order.
- `PublicKey` is not modelled, nor is its base58 parsing. A key is its 32 raw bytes, so `bytes(key)` is the identity. The `sysvar` module is not part of this model either; its three addresses appear as constants.
- `create_account` and `create_account_with_seed` are foreign calls into the System program, so their internals are not modelled. That includes seed validation and its errors. Their results are records of the parameters passed.
- The layout library is not modelled. Only the behaviour of the fields used here is: `Struct`, `Switch` with its `Pass` default, `Int32ul`, `Int64ul`, `Int64sl` and a 32-byte raw key field. Type errors such as a non-integer in an integer field cannot arise from the typed records, so they are not modelled.
- StakeProgram.CreateAccountAndDelegateStake: does not model the type error and attribute error that `create_account_and_delegate_stake` raises as written (stake_program.py:193-197, 206). It gives the intended two-instruction shape instead, and it does not build the unused Delegate instruction.
- `test_initialize_stake` is an ad-hoc helper with untyped parameters, so it is not modelled.
