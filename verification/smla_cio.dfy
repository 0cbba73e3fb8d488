/** The SMLA_CIO memory-standard descriptor: its levels, commands, states and
    the static tables the generic DRAM device tree and the controller consult.

    The source writes each enumeration as an `enum class … : int` whose last
    member `MAX` counts the others, and each table as a C array indexed by the
    enumerator's integer value. The model keeps both: every enumeration that
    indexes a table has an `All…` sequence listing its members in declaration
    order (so position i is the member whose integer value is i), and every
    table is a sequence read at that position. `State` indexes no table here
    and has no such sequence. */
module SmlaCio {
  import opened Wrappers

  // ---------------------------------------------------------------------
  // Levels

  /** The levels of the device tree, outermost first. */
  datatype Level = Channel | Rank | Bank | Row | Column

  /** The value of `Level::MAX`. */
  const LevelCount: nat := 5

  /** The levels in declaration order. */
  const AllLevels: seq<Level> := [Channel, Rank, Bank, Row, Column]

  /** The integer value `int(l)` of a level. */
  function LevelIndex(l: Level): (i: nat)
    ensures i < LevelCount == |AllLevels|
    ensures AllLevels[i] == l
  {
    match l
    case Channel => 0
    case Rank => 1
    case Bank => 2
    case Row => 3
    case Column => 4
  }

  /** The level whose integer value is i. */
  function LevelAt(i: nat): (l: Level)
    requires i < LevelCount
    ensures LevelIndex(l) == i
  {
    AllLevels[i]
  }

  // ---------------------------------------------------------------------
  // Commands

  datatype Command = ACT | PRE | PRA | RD | WR | RDA | WRA | REF | PD | PDX | SREF | SREFX

  /** The value of `Command::MAX`. */
  const CommandCount: nat := 12

  /** The commands in declaration order. */
  const AllCommands: seq<Command> := [ACT, PRE, PRA, RD, WR, RDA, WRA, REF, PD, PDX, SREF, SREFX]

  /** The integer value `int(c)` of a command. */
  function CommandIndex(c: Command): (i: nat)
    ensures i < CommandCount == |AllCommands|
    ensures AllCommands[i] == c
  {
    match c
    case ACT => 0
    case PRE => 1
    case PRA => 2
    case RD => 3
    case WR => 4
    case RDA => 5
    case WRA => 6
    case REF => 7
    case PD => 8
    case PDX => 9
    case SREF => 10
    case SREFX => 11
  }

  /** The command whose integer value is i. */
  function CommandAt(i: nat): (c: Command)
    requires i < CommandCount
    ensures CommandIndex(c) == i
  {
    AllCommands[i]
  }

  /** Integer values and commands are in one-to-one correspondence. */
  lemma CommandIndexInjective(c: Command, d: Command)
    ensures CommandIndex(c) == CommandIndex(d) <==> c == d
  {
  }

  // ---------------------------------------------------------------------
  // Command names

  /** The `command_name` array, indexed by a command's integer value. */
  const CommandNames: seq<string> :=
    ["ACT", "PRE", "PRA", "RD", "WR", "RDA", "WRA", "REF", "PD", "PDX", "SREF", "SREFX"]

  predicate IsUpperMnemonic(s: string) {
    s != [] && forall k :: 0 <= k < |s| ==> 'A' <= s[k] <= 'Z'
  }

  /** The printable name of a command: a non-empty upper-case mnemonic. */
  function CommandName(c: Command): (name: string)
    ensures IsUpperMnemonic(name)
  {
    CommandNames[CommandIndex(c)]
  }

  /** No two commands share a name. */
  lemma CommandNameInjective(c: Command, d: Command)
    ensures CommandName(c) == CommandName(d) <==> c == d
  {
  }

  /** The inverse of `CommandName`: the command a name denotes, if any. */
  method LookupCommand(name: string) returns (r: Option<Command>)
    ensures r.Some? ==> CommandName(r.value) == name
    ensures r.None? ==> forall c :: CommandName(c) != name
  {
    var i := 0;
    while i < CommandCount
      invariant 0 <= i <= CommandCount
      invariant forall j :: 0 <= j < i ==> CommandNames[j] != name
    {
      if CommandNames[i] == name {
        return Some(CommandAt(i));
      }
      i := i + 1;
    }
    return None;
  }

  // ---------------------------------------------------------------------
  // Scope

  /** The `scope` array: the level at which each command is issued. */
  const ScopeTable: seq<Level> :=
    [ Row, Bank, Rank,
      Column, Column, Column, Column,
      Rank, Rank, Rank, Rank, Rank ]

  /** The level at which a command is issued; no command is issued to a whole channel. */
  function Scope(c: Command): (l: Level)
    ensures l != Channel
  {
    ScopeTable[CommandIndex(c)]
  }

  /** cs lists commands in strictly increasing order of integer value (so each at most once). */
  predicate InCommandOrder(cs: seq<Command>) {
    forall j, k :: 0 <= j < k < |cs| ==> CommandIndex(cs[j]) < CommandIndex(cs[k])
  }

  /** A list in command order is determined by which commands it holds. */
  lemma {:induction false} InCommandOrderUnique(xs: seq<Command>, ys: seq<Command>)
    requires InCommandOrder(xs) && InCommandOrder(ys)
    requires forall c :: c in xs <==> c in ys
    ensures xs == ys
  {
    assert ys != [] ==> ys[0] in xs;
    assert xs != [] ==> xs[0] in ys;
    if xs != [] {
      assert xs[0] == ys[0] by {
        assert xs[0] in ys;
        assert ys[0] in xs;
        CommandIndexInjective(xs[0], ys[0]);
      }
      assert xs == [xs[0]] + xs[1..];
      assert ys == [ys[0]] + ys[1..];
      forall c
        ensures c in xs[1..] <==> c in ys[1..]
      {
        if c in xs[1..] {
          HeadNotInTail(xs, c);
          assert c in xs && c in ys && c != ys[0];
        }
        if c in ys[1..] {
          HeadNotInTail(ys, c);
          assert c in ys && c in xs && c != xs[0];
        }
      }
      InCommandOrderUnique(xs[1..], ys[1..]);
    }
  }

  lemma HeadNotInTail(xs: seq<Command>, c: Command)
    requires InCommandOrder(xs)
    requires xs != [] && c in xs[1..]
    ensures c != xs[0]
  {
    var k :| 0 <= k < |xs| - 1 && xs[1..][k] == c;
    assert CommandIndex(xs[0]) < CommandIndex(xs[k + 1]);
  }

  /** The commands with integer value at least i issued at level l, in
      increasing order of integer value. */
  function CommandsFrom(l: Level, i: nat): (cs: seq<Command>)
    requires i <= CommandCount
    decreases CommandCount - i
    ensures forall c :: c in cs <==> i <= CommandIndex(c) && Scope(c) == l
    ensures InCommandOrder(cs)
  {
    if i == CommandCount then []
    else
      var rest := CommandsFrom(l, i + 1);
      assert forall c :: CommandIndex(c) == i ==> c == CommandAt(i) && Scope(c) == ScopeTable[i];
      if ScopeTable[i] == l then [CommandAt(i)] + rest else rest
  }

  /** The commands issued at level l, each once, in declaration order. */
  function CommandsAt(l: Level): (cs: seq<Command>)
    ensures forall c :: c in cs <==> Scope(c) == l
    ensures InCommandOrder(cs)
  {
    CommandsFrom(l, 0)
  }

  /** The commands issued at level l are the list `expected` whenever
      `expected` is in command order and holds exactly those commands. */
  lemma CommandsAtIs(l: Level, expected: seq<Command>)
    requires InCommandOrder(expected)
    requires forall c :: Scope(c) == l <==> c in expected
    ensures CommandsAt(l) == expected
  {
    InCommandOrderUnique(CommandsAt(l), expected);
  }

  lemma RankScoped()
    ensures InCommandOrder([PRA, REF, PD, PDX, SREF, SREFX])
    ensures forall c :: Scope(c) == Rank <==> c in [PRA, REF, PD, PDX, SREF, SREFX]
  {
  }

  lemma ColumnScoped()
    ensures InCommandOrder([RD, WR, RDA, WRA])
    ensures forall c :: Scope(c) == Column <==> c in [RD, WR, RDA, WRA]
  {
  }

  /** Every command has exactly one scope: the per-level command lists
      partition the twelve commands as the `scope` array lays them out. */
  lemma ScopePartition()
    ensures CommandsAt(Channel) == []
    ensures CommandsAt(Rank) == [PRA, REF, PD, PDX, SREF, SREFX]
    ensures CommandsAt(Bank) == [PRE]
    ensures CommandsAt(Row) == [ACT]
    ensures CommandsAt(Column) == [RD, WR, RDA, WRA]
    ensures |CommandsAt(Channel)| + |CommandsAt(Rank)| + |CommandsAt(Bank)|
            + |CommandsAt(Row)| + |CommandsAt(Column)| == CommandCount
  {
    CommandsAtIs(Channel, []);
    CommandsAtIs(Bank, [PRE]);
    CommandsAtIs(Row, [ACT]);
    RankScoped();
    CommandsAtIs(Rank, [PRA, REF, PD, PDX, SREF, SREFX]);
    ColumnScoped();
    CommandsAtIs(Column, [RD, WR, RDA, WRA]);
  }

  // ---------------------------------------------------------------------
  // Command classification

  /** Opening commands bring a row into the row buffer; they are exactly the Row-scoped commands. */
  function IsOpening(c: Command): (b: bool)
    ensures b <==> Scope(c) == Row
  {
    match c
    case ACT => true
    case _ => false
  }

  /** Accessing commands read or write columns; they are exactly the Column-scoped commands. */
  function IsAccessing(c: Command): (b: bool)
    ensures b <==> Scope(c) == Column
  {
    match c
    case RD | WR | RDA | WRA => true
    case _ => false
  }

  /** Closing commands leave a row closed: the Bank-scoped precharge, the
      Rank-scoped precharge-all, and the two auto-precharging accesses. */
  function IsClosing(c: Command): (b: bool)
    ensures Scope(c) == Bank ==> b
    ensures b ==> Scope(c) != Row && !IsOpening(c)
    ensures b && Scope(c) == Rank ==> !IsRefreshing(c)
  {
    match c
    case RDA | WRA | PRE | PRA => true
    case _ => false
  }

  /** Refreshing commands are issued to a whole rank and neither access nor open a row. */
  function IsRefreshing(c: Command): (b: bool)
    ensures b ==> Scope(c) == Rank && !IsAccessing(c) && !IsOpening(c)
  {
    match c
    case REF => true
    case _ => false
  }

  /** ACT is the only opening command, and the only Row-scoped one. */
  lemma OpeningIsAct()
    ensures forall c :: IsOpening(c) <==> c == ACT
    ensures forall c :: Scope(c) == Row <==> c == ACT
  {
  }

  /** The accessing commands are RD, WR, RDA, WRA, and exactly the Column-scoped ones. */
  lemma AccessingIsColumnScope()
    ensures forall c :: IsAccessing(c) <==> c in {RD, WR, RDA, WRA}
    ensures forall c :: IsAccessing(c) <==> Scope(c) == Column
  {
  }

  /** The closing commands are RDA, WRA, PRE, PRA; only the auto-precharging
      accesses both access and close, and opening shares nothing with either. */
  lemma ClosingCommands()
    ensures forall c :: IsClosing(c) <==> c in {RDA, WRA, PRE, PRA}
    ensures forall c :: IsAccessing(c) && IsClosing(c) <==> c in {RDA, WRA}
    ensures forall c :: IsOpening(c) ==> !IsAccessing(c) && !IsClosing(c)
  {
  }

  /** REF is the only refreshing command, and it is Rank-scoped. */
  lemma RefreshingIsRef()
    ensures forall c :: IsRefreshing(c) <==> c == REF
    ensures Scope(REF) == Rank
  {
  }

  // ---------------------------------------------------------------------
  // States

  /** The states a level node can be in. The source's extra `MAX` value,
      used in `start` for levels that carry no state, is `None` here. */
  datatype State = Opened | Closed | PowerUp | ActPowerDown | PrePowerDown | SelfRefresh

  /** The `start` array, indexed by a level's integer value. */
  const StartTable: seq<Option<State>> := [None, Some(PowerUp), Some(Closed), Some(Closed), None]

  /** The state a freshly built node of level l starts in. */
  function Start(l: Level): (s: Option<State>)
    ensures s.None? <==> l == Channel || l == Column
    ensures s.Some? ==> s.value == Closed || s.value == PowerUp
  {
    StartTable[LevelIndex(l)]
  }

  /** The start table agrees with the command scopes: every level a
      non-accessing command is issued at starts in a state (PowerUp for the
      rank, where the power commands act; Closed for the bank and row, where
      precharge and activate act), while the Column level, where accesses
      are issued, and the Channel level, where nothing is, carry none. */
  lemma StartMatchesScope()
    ensures forall c :: Start(Scope(c)).None? <==> IsAccessing(c)
    ensures forall c :: IsOpening(c) ==> Start(Scope(c)) == Some(Closed)
    ensures Start(Scope(PRE)) == Some(Closed)
    ensures forall c :: c in {PRA, REF, PD, PDX, SREF, SREFX} ==> Start(Scope(c)) == Some(PowerUp)
    ensures Start(Channel).None?
  {
  }

  // ---------------------------------------------------------------------
  // Request translation

  /** The kinds of request a controller receives (Request.h is not part of
      this model; this order is the one the `translate` array is written in). */
  datatype RequestType = READ | WRITE | REFRESH | POWERDOWN | SELFREFRESH

  /** The number of request types this model knows: the five entries the
      `translate` array is initialised with. */
  const RequestTypeCount: nat := 5

  /** The request types in the order of the `translate` array. */
  const AllRequestTypes: seq<RequestType> := [READ, WRITE, REFRESH, POWERDOWN, SELFREFRESH]

  /** The integer value `int(t)` of a request type, used to index `translate`. */
  function RequestTypeIndex(t: RequestType): (i: nat)
    ensures i < RequestTypeCount == |AllRequestTypes|
    ensures AllRequestTypes[i] == t
  {
    match t
    case READ => 0
    case WRITE => 1
    case REFRESH => 2
    case POWERDOWN => 3
    case SELFREFRESH => 4
  }

  /** The `translate` array, indexed by a request type's integer value. */
  const TranslateTable: seq<Command> := [RD, WR, REF, PD, SREF]

  /** The command that completes a request of type t. Reads and writes end
      in plain (non-closing) column accesses, refreshes in the one refreshing
      command, and every other request in a Rank-scoped command. */
  function Translate(t: RequestType): (c: Command)
    ensures (t == READ || t == WRITE) <==> IsAccessing(c)
    ensures IsAccessing(c) ==> !IsClosing(c)
    ensures t == REFRESH <==> IsRefreshing(c)
    ensures t in {REFRESH, POWERDOWN, SELFREFRESH} <==> Scope(c) == Rank
    ensures !IsOpening(c)
  {
    TranslateTable[RequestTypeIndex(t)]
  }

  /** The translation is one-to-one, and it is READ→RD, WRITE→WR,
      REFRESH→REF, POWERDOWN→PD, SELFREFRESH→SREF. */
  lemma TranslateInjective()
    ensures forall t, u :: Translate(t) == Translate(u) ==> t == u
    ensures Translate(READ) == RD && Translate(WRITE) == WR && Translate(REFRESH) == REF
    ensures Translate(POWERDOWN) == PD && Translate(SELFREFRESH) == SREF
  {
  }

  // ---------------------------------------------------------------------
  // Timing entries

  /** The element type of the `timing` table: a command `cmd`, two integers
      `dist` and `val`, and a flag `sibling`. The table's contents, and how the
      device tree reads an entry (DRAM.h), are not part of this model. */
  datatype TimingEntry = TimingEntry(cmd: Command, dist: int, val: int, sibling: bool)

}
