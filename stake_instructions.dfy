/** The stake-program instruction layout: a 4-byte little-endian instruction
    type followed by one payload chosen by a switch table on that type. */
module StakeInstructions {
  import opened Primitives

  /** The instruction types of the staking program and their fixed discriminants. */
  datatype StakeInstructionType =
    | InitializeStakeAccount
    | DelegateStake
    | Deactivate
    | WithdrawStake

  function Discriminant(t: StakeInstructionType): (n: nat)
    ensures n < 4
  {
    match t
    case InitializeStakeAccount => 0
    case DelegateStake => 1
    case Deactivate => 2
    case WithdrawStake => 3
  }

  /** The enumeration member with value n, if there is one. */
  function InstructionTypeOf(n: int): (r: Option<StakeInstructionType>)
    ensures r.Some? <==> 0 <= n < 4
    ensures r.Some? ==> Discriminant(r.value) == n
  {
    if n == 0 then Some(InitializeStakeAccount)
    else if n == 1 then Some(DelegateStake)
    else if n == 2 then Some(Deactivate)
    else if n == 3 then Some(WithdrawStake)
    else None
  }

  lemma InstructionTypeOfDiscriminant(t: StakeInstructionType)
    ensures InstructionTypeOf(Discriminant(t)) == Some(t)
  {
  }

  /** The two keys of the authorized layout. */
  datatype Authorized = Authorized(staker: PublicKey, withdrawer: PublicKey)

  /** The lockup layout: a signed timestamp, an unsigned epoch and a custodian key. */
  datatype Lockup = Lockup(unixTimestamp: int, epoch: int, custodian: PublicKey)

  /** The `args` value handed to (or produced by) the switch. */
  datatype Args =
    | InitializeArgs(authorized: Authorized, lockup: Lockup)
    | WithdrawArgs(lamports: int)
    | NoArgs

  /** The container the layout builds from and parses into. */
  datatype Container = Container(instructionType: int, args: Args)

  /** The payload layouts the switch can select; PassLayout reads and writes nothing. */
  datatype Layout = InitializeLayout | WithdrawLayout | PassLayout

  /** The switch table as listed: only Initialize, Delegate and Withdraw have entries. */
  function SwitchTable(key: int): (r: Option<Layout>)
    ensures r.Some? <==> key == 0 || key == 1 || key == 3
  {
    if key == Discriminant(InitializeStakeAccount) then Some(InitializeLayout)
    else if key == Discriminant(DelegateStake) then Some(PassLayout)
    else if key == Discriminant(WithdrawStake) then Some(WithdrawLayout)
    else None
  }

  /** The layout the switch uses for a key: the table entry, or Pass by default. */
  function SwitchCase(key: int): (l: Layout)
    ensures l == InitializeLayout <==> key == 0
    ensures l == WithdrawLayout <==> key == 3
  {
    match SwitchTable(key)
    case Some(l) => l
    case None => PassLayout
  }

  /** The Deactivate discriminant is absent from the table and falls through to Pass. */
  lemma DeactivateHasNoEntry()
    ensures SwitchTable(Discriminant(Deactivate)) == None
    ensures SwitchCase(Discriminant(Deactivate)) == PassLayout
  {
  }

  /** Bytes each payload layout occupies after the discriminant. */
  function PayloadWidth(l: Layout): nat
  {
    match l
    case InitializeLayout => 112
    case WithdrawLayout => 8
    case PassLayout => 0
  }


  datatype BuildError =
    | IntegerOutOfRange   // a value does not fit its integer field
    | ArgsMismatch        // the args lack the fields the selected layout reads

  datatype ParseError = StreamError   // fewer bytes than the layout reads

  predicate LockupInRange(l: Lockup)
  {
    IsI64(l.unixTimestamp) && IsU64(l.epoch)
  }

  /** Whether a container can be built: every integer fits its field and the
      args carry what the selected layout needs. */
  predicate Buildable(c: Container)
  {
    IsU32(c.instructionType) &&
    match SwitchCase(c.instructionType)
    case InitializeLayout => c.args.InitializeArgs? && LockupInRange(c.args.lockup)
    case WithdrawLayout => c.args.WithdrawArgs? && IsU64(c.args.lamports)
    case PassLayout => true
  }

  function BuildAuthorized(a: Authorized): (s: seq<byte>)
    ensures |s| == 64 && s[..32] == a.staker && s[32..] == a.withdrawer
  {
    a.staker + a.withdrawer
  }

  function BuildLockup(l: Lockup): (s: seq<byte>)
    requires LockupInRange(l)
    ensures |s| == 48
    ensures s[..8] == I64Le(l.unixTimestamp) && s[8..16] == U64Le(l.epoch) && s[16..] == l.custodian
  {
    I64Le(l.unixTimestamp) + U64Le(l.epoch) + l.custodian
  }

  /** The Initialize layout's width is exactly the bytes its authorized and lockup
      layouts write. */
  lemma InitializeWidthIsFieldSum(a: Authorized, l: Lockup)
    requires LockupInRange(l)
    ensures |BuildAuthorized(a) + BuildLockup(l)| == PayloadWidth(InitializeLayout)
  {
  }

  /** STAKE_INSTRUCTIONS_LAYOUT.build: the discriminant, then the switched payload. */
  function Build(c: Container): (r: Result<seq<byte>, BuildError>)
    ensures r.Ok? <==> Buildable(c)
    ensures r.Ok? ==> |r.value| == 4 + PayloadWidth(SwitchCase(c.instructionType))
    ensures r.Ok? ==> r.value[..4] == U32Le(c.instructionType)
  {
    if !IsU32(c.instructionType) then Err(IntegerOutOfRange)
    else
      var head := U32Le(c.instructionType);
      match SwitchCase(c.instructionType)
      case PassLayout => Ok(head)
      case InitializeLayout =>
        (match c.args
         case InitializeArgs(a, l) =>
           if LockupInRange(l) then Ok(head + BuildAuthorized(a) + BuildLockup(l))
           else Err(IntegerOutOfRange)
         case _ => Err(ArgsMismatch))
      case WithdrawLayout =>
        (match c.args
         case WithdrawArgs(lamports) =>
           if IsU64(lamports) then Ok(head + U64Le(lamports)) else Err(IntegerOutOfRange)
         case _ => Err(ArgsMismatch))
  }

  /** STAKE_INSTRUCTIONS_LAYOUT.parse: reads the discriminant and the payload it
      selects; bytes after the payload are left unread. */
  function Parse(s: seq<byte>): (r: Result<Container, ParseError>)
    ensures r.Ok? <==> 4 <= |s| && 4 + PayloadWidth(SwitchCase(DecodeUnsigned(s[..4]))) <= |s|
    ensures r.Ok? ==> r.value.instructionType == DecodeUnsigned(s[..4])
  {
    if |s| < 4 then Err(StreamError)
    else
      var key := DecodeUnsigned(s[..4]);
      match SwitchCase(key)
      case PassLayout => Ok(Container(key, NoArgs))
      case InitializeLayout =>
        if |s| < 116 then Err(StreamError)
        else
          Ok(Container(key, InitializeArgs(
                         Authorized(s[4..36], s[36..68]),
                         Lockup(I64FromLe(s[68..76]), DecodeUnsigned(s[76..84]), s[84..116]))))
      case WithdrawLayout =>
        if |s| < 12 then Err(StreamError)
        else Ok(Container(key, WithdrawArgs(DecodeUnsigned(s[4..12]))))
  }

  /** The number of bytes a successful parse reads. */
  function Consumed(c: Container): nat
  {
    4 + PayloadWidth(SwitchCase(c.instructionType))
  }

  /** What parsing gives back for a container: Pass drops whatever args were supplied. */
  function Normalized(c: Container): (n: Container)
    ensures n.instructionType == c.instructionType
    ensures SwitchCase(c.instructionType) != PassLayout ==> n == c
  {
    if SwitchCase(c.instructionType) == PassLayout then Container(c.instructionType, NoArgs) else c
  }

  /** A container whose args have the shape the switch table gives its type. */
  predicate Canonical(c: Container)
  {
    match SwitchCase(c.instructionType)
    case InitializeLayout => c.args.InitializeArgs?
    case WithdrawLayout => c.args.WithdrawArgs?
    case PassLayout => c.args.NoArgs?
  }

  /** Every built encoding parses back to the container, up to the args Pass drops. */
  lemma ParseBuild(c: Container)
    requires Buildable(c)
    ensures Parse(Build(c).value) == Ok(Normalized(c))
  {
    var s := Build(c).value;
    assert s[..4] == U32Le(c.instructionType);
    match SwitchCase(c.instructionType)
    case PassLayout =>
    case InitializeLayout =>
      var a := c.args.authorized;
      var l := c.args.lockup;
      var pay := BuildLockup(l);
      assert s == s[..4] + BuildAuthorized(a) + pay;
      assert s[4..36] == a.staker;
      assert s[36..68] == a.withdrawer;
      assert s[68..76] == pay[..8];
      assert s[76..84] == pay[8..16];
      assert s[84..116] == l.custodian;
      I64RoundTrip(l.unixTimestamp);
    case WithdrawLayout =>
      assert s[4..12] == U64Le(c.args.lamports);
  }

  /** Round trip: a buildable canonical container is recovered exactly. */
  lemma RoundTrip(c: Container)
    requires Buildable(c) && Canonical(c)
    ensures Parse(Build(c).value) == Ok(c)
  {
    ParseBuild(c);
  }

  /** The payload fields read from an Initialize buffer are rebuilt into the same bytes. */
  lemma BuildParsedInitialize(s: seq<byte>)
    requires |s| >= 116
    ensures IsU64(DecodeUnsigned(s[76..84]))
    ensures BuildAuthorized(Authorized(s[4..36], s[36..68])) == s[4..68]
    ensures BuildLockup(Lockup(I64FromLe(s[68..76]), DecodeUnsigned(s[76..84]), s[84..116])) == s[68..116]
  {
    LimitsArePowers();
    I64RoundTripBytes(s[68..76]);
    EncodeDecodeUnsigned(s[76..84]);
  }

  /** The other direction: rebuilding a parsed container gives back exactly the bytes read. */
  lemma BuildParse(s: seq<byte>)
    requires Parse(s).Ok?
    ensures Consumed(Parse(s).value) <= |s|
    ensures Build(Parse(s).value) == Ok(s[..Consumed(Parse(s).value)])
  {
    var c := Parse(s).value;
    EncodeDecodeUnsigned(s[..4]);
    LimitsArePowers();
    assert U32Le(c.instructionType) == s[..4];
    match SwitchCase(c.instructionType)
    case PassLayout =>
    case InitializeLayout =>
      BuildParsedInitialize(s);
      assert s[..116] == s[..4] + s[4..68] + s[68..116];
    case WithdrawLayout =>
      EncodeDecodeUnsigned(s[4..12]);
      assert s[..12] == s[..4] + s[4..12];
  }

  /** Trailing bytes after a complete instruction are ignored, not rejected. */
  lemma ParseIgnoresTrailingBytes(s: seq<byte>, extra: seq<byte>)
    requires Parse(s).Ok?
    ensures Parse(s + extra) == Parse(s)
  {
    var t := s + extra;
    assert t[..4] == s[..4];
    var key := DecodeUnsigned(s[..4]);
    match SwitchCase(key)
    case PassLayout =>
    case InitializeLayout =>
      assert t[4..36] == s[4..36] && t[36..68] == s[36..68];
      assert t[68..76] == s[68..76] && t[76..84] == s[76..84] && t[84..116] == s[84..116];
    case WithdrawLayout =>
      assert t[4..12] == s[4..12];
  }

  /** Each instruction type's first four bytes are its discriminant, low byte first. */
  lemma DiscriminantBytes(t: StakeInstructionType, args: Args)
    requires Buildable(Container(Discriminant(t), args))
    ensures Build(Container(Discriminant(t), args)).value[..4] == [Discriminant(t), 0, 0, 0]
  {
    var n := Discriminant(t);
    var w := U32Le(n);
    assert w == [n, 0, 0, 0] by {
      LimitsArePowers();
      assert w == EncodeUnsigned(n, 4);
    }
  }

  /** The Initialize encoding: 116 bytes with every field at its fixed offset. */
  lemma InitializeEncoding(a: Authorized, l: Lockup)
    ensures Build(Container(0, InitializeArgs(a, l))).Ok? <==> LockupInRange(l)
    ensures LockupInRange(l) ==>
              var s := Build(Container(0, InitializeArgs(a, l))).value;
              |s| == 116 && s[..4] == [0, 0, 0, 0] &&
              s[4..36] == a.staker && s[36..68] == a.withdrawer &&
              s[68..76] == I64Le(l.unixTimestamp) && s[76..84] == U64Le(l.epoch) &&
              s[84..116] == l.custodian
  {
    if LockupInRange(l) {
      var s := Build(Container(0, InitializeArgs(a, l))).value;
      DiscriminantBytes(InitializeStakeAccount, InitializeArgs(a, l));
      var pay := BuildLockup(l);
      assert s == s[..4] + BuildAuthorized(a) + pay;
      assert s[68..76] == pay[..8];
      assert s[76..84] == pay[8..16];
      assert s[84..116] == pay[16..];
    }
  }

  /** Delegate writes only its discriminant, whatever args are supplied. */
  lemma DelegateEncoding(args: Args)
    ensures Build(Container(1, args)) == Ok([1, 0, 0, 0])
  {
    DiscriminantBytes(DelegateStake, args);
  }

  /** Deactivate has no table entry; the default Pass makes it a bare discriminant too. */
  lemma DeactivateEncoding(args: Args)
    ensures Build(Container(2, args)) == Ok([2, 0, 0, 0])
  {
    DiscriminantBytes(Deactivate, args);
  }

  /** The Withdraw encoding: 12 bytes for every u64 lamports, an error otherwise. */
  lemma WithdrawEncoding(lamports: int)
    ensures Build(Container(3, WithdrawArgs(lamports))).Ok? <==> IsU64(lamports)
    ensures IsU64(lamports) ==>
              var s := Build(Container(3, WithdrawArgs(lamports))).value;
              |s| == 12 && s[..4] == [3, 0, 0, 0] && s[4..] == U64Le(lamports) &&
              DecodeUnsigned(s[4..]) == lamports
  {
    if IsU64(lamports) {
      DiscriminantBytes(WithdrawStake, WithdrawArgs(lamports));
    }
  }

  /** A discriminant the enumeration does not know is parsed, not rejected. */
  lemma UnknownDiscriminantAccepted()
    ensures Parse([0xFF, 0xFF, 0xFF, 0xFF]) == Ok(Container(0xFFFF_FFFF, NoArgs))
  {
    var s: seq<byte> := [0xFF, 0xFF, 0xFF, 0xFF];
    assert s[..4] == s;
    assert DecodeUnsigned(s) == 0xFFFF_FFFF by {
      assert s[1..][1..][1..][1..] == [];
    }
  }

  /** A buffer that stops inside the Initialize payload is rejected. */
  lemma ShortInitializeRejected(s: seq<byte>)
    requires 4 <= |s| < 116 && s[..4] == [0, 0, 0, 0]
    ensures Parse(s).Err?
  {
    LimitsArePowers();
    DecodeEncodeUnsigned(0, 4);
    assert EncodeUnsigned(0, 4) == s[..4];
  }
}
