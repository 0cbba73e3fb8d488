# SMLA_CIO memory-standard descriptor, in Dafny

This project models the SMLA_CIO memory standard of the Ramulator-based SMLA
DRAM simulator. The descriptor is a closed, static set of tables. The generic
DRAM device tree and the memory controller consult it to learn:

- the levels of the device tree (channel, rank, bank, row, column);
- the twelve commands and the level each one is issued at;
- which commands open, access, close or refresh a row;
- the state each level starts in;
- which command completes each kind of request;
- the device geometry of each density and the cycle timings of each speed grade.

In the source, each enumeration is an `enum class … : int` ending in a `MAX`
member. Each table is a C array indexed by the enumerator's integer value.
The model keeps that shape. Each enumeration is a Dafny datatype. Each one
that indexes a table (level, command, request type, organization, speed) has
an `…Index` function giving its integer value. `State` indexes no table in
this header and has none. Each table is a `seq` read at that index. Each
property the tables are meant to have is stated as a postcondition or a lemma.

Files:

- `wrappers.dfy`: module `Wrappers`, the `Option` type.
- `power_of_two.dfy`: module `PowerOfTwo`. `Pow2(k)` is the shift `1 << k`, and `ExactLog2` is its exact inverse.
- `smla_cio.dfy`: module `SmlaCio`. It holds levels, commands, command names, scope, classification, states, the start table, request translation and `TimingEntry`.
- `org.dfy`: module `SmlaCioOrg`, the organization table.
- `speed.dfy`: module `SmlaCioSpeed`, the integer columns of the speed table and the `channel_width` constant.

Choices where the model differs in form from the source:

- The `MAX` sentinel that `start` stores for the Channel and Column levels
  becomes `None` of an `Option<State>`. Every other entry becomes `Some`.
  State names are the source's.
- The organization and speed enumerators `SMLA_CIO_1Gb`, …, `SMLA_CIO_266`
  are named `Org1Gb`, …, `Speed266`.
- The organization counts written `1<<k` are written `Pow2(k)`.
- The request types are READ, WRITE, REFRESH, POWERDOWN and SELFREFRESH, in
  that order. Request.h is not part of this model. This is the order the
  `translate` array is written in.
- `TimingEntry` is declared as a record with the source's four fields. The
  header only declares the `timing` table. `init_timing`, which fills it, is
  not part of this model, so the record has no behaviour.

## Model

| member | source | states |
|---|---|---|
| SmlaCio.LevelIndex | src/SMLA_CIO.h:27-30 | each level's integer value is below `Level::MAX` (5), and the levels listed in declaration order have that level at that position |
| SmlaCio.LevelAt | src/SMLA_CIO.h:27-30 | every integer below `Level::MAX` is the value of exactly the level returned, so integer values and levels correspond one to one |
| SmlaCio.CommandIndex | src/SMLA_CIO.h:33-39 | each command's integer value is below `Command::MAX` (12), and the commands listed in declaration order have that command at that position |
| SmlaCio.CommandAt | src/SMLA_CIO.h:33-39 | every integer below `Command::MAX` is the value of the command returned |
| SmlaCio.CommandIndexInjective | src/SMLA_CIO.h:33-39 | two commands have the same integer value exactly when they are the same command |
| SmlaCio.CommandName | src/SMLA_CIO.h:41-45 | every command's printable name is a non-empty upper-case mnemonic |
| SmlaCio.CommandNameInjective | src/SMLA_CIO.h:41-45 | two commands share a printable name exactly when they are the same command |
| SmlaCio.LookupCommand | src/SMLA_CIO.h:41-45 | (no source counterpart; inverse of `command_name`) a returned command has exactly the given name, and no result means no command has that name |
| SmlaCio.Scope | src/SMLA_CIO.h:47-51 | every command has a scope, and no command is issued to a whole channel |
| SmlaCio.CommandsFrom | src/SMLA_CIO.h:47-51 | (no source counterpart; inverse of `scope`) from a given integer value on, lists exactly the commands scoped at a level, each once, in declaration order |
| SmlaCio.CommandsAt | src/SMLA_CIO.h:47-51 | (no source counterpart; inverse of `scope`) lists exactly the commands scoped at a level, each once, in declaration order |
| SmlaCio.ScopePartition | src/SMLA_CIO.h:47-51 | the commands split by scope as Channel: none; Rank: PRA, REF, PD, PDX, SREF, SREFX; Bank: PRE; Row: ACT; Column: RD, WR, RDA, WRA; the five lists together hold all twelve commands |
| SmlaCio.IsOpening | src/SMLA_CIO.h:53-61 | a command opens a row exactly when it is Row-scoped |
| SmlaCio.IsAccessing | src/SMLA_CIO.h:63-74 | a command is an access exactly when it is Column-scoped |
| SmlaCio.IsClosing | src/SMLA_CIO.h:76-87 | the Bank-scoped command closes; no closing command is Row-scoped or opening; a Rank-scoped closing command is not a refresh |
| SmlaCio.IsRefreshing | src/SMLA_CIO.h:89-97 | a refreshing command is Rank-scoped and neither accesses nor opens a row |
| SmlaCio.OpeningIsAct | src/SMLA_CIO.h:47-61 | ACT is the only opening command and the only Row-scoped command |
| SmlaCio.AccessingIsColumnScope | src/SMLA_CIO.h:47-74 | the accessing commands are exactly RD, WR, RDA, WRA, and exactly the Column-scoped ones |
| SmlaCio.ClosingCommands | src/SMLA_CIO.h:76-87 | the closing commands are exactly RDA, WRA, PRE, PRA; accessing and closing overlap in exactly RDA, WRA; an opening command neither accesses nor closes |
| SmlaCio.RefreshingIsRef | src/SMLA_CIO.h:89-97 | REF is the only refreshing command, and it is Rank-scoped |
| SmlaCio.Start | src/SMLA_CIO.h:101-106 | Channel and Column start with no state (the `MAX` sentinel); every other level starts Closed or PowerUp |
| SmlaCio.StartMatchesScope | src/SMLA_CIO.h:101-106 | a command's level has no start state exactly when the command is an access; ACT's and PRE's levels start Closed; the Rank level, where precharge-all, refresh and the power commands act, starts PowerUp; Channel has no state |
| SmlaCio.RequestTypeIndex | src/SMLA_CIO.h:109-112 | each request type's integer value, the index into `translate`, is below the five entries the array is initialised with, and the request types listed in that order have it at that position |
| SmlaCio.Translate | src/SMLA_CIO.h:109-112 | reads and writes, and only they, become accesses, and those accesses do not close the row; a refresh, and only it, becomes the refreshing command; refresh, power-down and self-refresh requests, and only they, become Rank-scoped commands; no request becomes an activate |
| SmlaCio.TranslateInjective | src/SMLA_CIO.h:109-112 | distinct request types become distinct commands: READ→RD, WRITE→WR, REFRESH→REF, POWERDOWN→PD, SELFREFRESH→SREF |
| PowerOfTwo.Pow2 | src/SMLA_CIO.h:152-155 | the shift `1<<k` is a positive integer, even for every k ≥ 1 |
| PowerOfTwo.ExactLog2 | src/SMLA_CIO.h:152-155 | (no source counterpart; inverse of the `1<<k` shift) a returned exponent k satisfies 2^k = n, the meaning of the `1<<k` counts |
| PowerOfTwo.ExactLog2OfPow2 | src/SMLA_CIO.h:152-155 | (no source counterpart; inverse of the `1<<k` shift) every power of two 2^k gets exponent k, so n is a power of two exactly when ExactLog2(n) returns one |
| SmlaCioOrg.OrgIndex | src/SMLA_CIO.h:137-144 | each organization's integer value is below `Org::MAX` (4), and the organizations listed in declaration order have it at that position |
| SmlaCioOrg.OrgRow | src/SMLA_CIO.h:146-156 | every organization entry has one count per level, and its data width equals the 128-bit channel width |
| SmlaCioOrg.OrgFixedShape | src/SMLA_CIO.h:150-156 | every organization has 1 rank, 4 banks, 2^7 columns and dq = 128, with the channel count left 0 |
| SmlaCioOrg.OrgRowsDouble | src/SMLA_CIO.h:150-156 | the organization with integer value i has 256·2^i megabits and 2^(12+i) rows: the size and the row count double together |
| SmlaCioOrg.OrgCountsArePowersOfTwo | src/SMLA_CIO.h:146-156 | every count below the channel, and dq, is a power of two, with exponents 0, 2, 12+i, 7 and 7 |
| SmlaCioOrg.OrgCapacityMatchesSize | src/SMLA_CIO.h:146-156 | size × 2^20 equals ranks × banks × rows × columns × dq, so the stated size in megabits agrees with the geometry |
| SmlaCioSpeed.SpeedIndex | src/SMLA_CIO.h:162-167 | each speed grade's integer value is below `Speed::MAX` (2), and the grades listed in declaration order have it at that position |
| SmlaCioSpeed.SpeedRow | src/SMLA_CIO.h:172-186 | each grade's rate is the grade's number (200 or 266), so positive, and every cycle count is non-negative |
| SmlaCioSpeed.FasterGradeNeedsNoFewerCycles | src/SMLA_CIO.h:183-186 | the 266 grade has the higher rate and needs at least as many cycles as the 200 grade for every timing parameter |
| SmlaCioSpeed.RowTimingsNest | src/SMLA_CIO.h:175-186 | in every grade nRCD = nRP, nRCD ≤ nRAS ≤ nRC, and nCCD = nBL |
| SmlaCioSpeed.RefreshTimingsUnset | src/SMLA_CIO.h:182-186 | in every grade nRFC, nREFI and nXSR are stored as zero |

## Left out

- The `freq` and `tCK` columns of the speed table are double-precision values and are not modelled.
- The `prereq`, `rowhit`, `rowopen`, `timing` and `lambda` tables are left out. So are `init_speed`, `init_lambda`, `init_prereq`, `init_rowhit`, `init_rowopen` and `init_timing`. Their contents are defined in source that is not part of this model.
- `set_channel_number`, `set_rank_number`, the contents of `org_map` and `speed_map`, the `SMLA_CIO(Org, Speed)` and string constructors, the `org_entry` and `speed_entry` members they fill, the static `standard_name`, and the `read_latency` / `read_latency_smla` values are left out. Their code is not part of this model.
- The generic device tree, constraint engine, controller and memory (DRAM.h, Controller.h, Memory.h) are not part of this model.
- The command-line driver and trace loops in src/Main.cpp are left out as I/O and process plumbing.
- src/Gem5Wrapper.cpp is left out. It passes ticks and requests straight to a memory object and has no logic of its own.
- SmlaCio.Translate: assumes exactly the five request types READ, WRITE, REFRESH, POWERDOWN and SELFREFRESH. Request.h is not part of this model. Should `Request::Type` have further members, `translate` has further slots, value-initialised to `ACT`. Such a request would then translate to an activate, and the `!IsOpening` clause would not hold of it.
- The `prefetch_size` constant is not modelled. No table in this header uses it.
- The relation tXSR = tRFC + 10 is noted beside the speed fields but does not hold of the stored values. `init_speed` is not part of this model and may derive the final values, so the model records the stored values as written and does not call this a defect.
