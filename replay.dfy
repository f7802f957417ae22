/**
  A sequence of commands executed one after another against a keyspace, as
  the host dispatches them. The module registers no load hook and no command
  other than ns.create and ns.info, so the only summaries a key can ever hold
  are empty ones, and ns.info can only ever report Null or the empty summary.
 */
module Replay {
  import opened Stats
  import opened Replies
  import opened Commands

  datatype Command =
    | CreateCmd(args: seq<string>, storeOk: bool)
    | InfoCmd(args: seq<string>)

  /** One command: its effect on the keyspace and its result. ns.info changes nothing. */
  function Exec(ks: map<string, Slot>, c: Command): (map<string, Slot>, CommandResult)
  {
    match c
    case CreateCmd(args, storeOk) => CreateCommand(ks, args, storeOk)
    case InfoCmd(args) => (ks, InfoCommand(ks, args))
  }

  /** Runs the commands in order; the results come back one per command. */
  function Run(ks: map<string, Slot>, cmds: seq<Command>): (out: (map<string, Slot>, seq<CommandResult>))
    ensures |out.1| == |cmds|
    decreases |cmds|
  {
    if cmds == [] then (ks, [])
    else
      var (ks1, r) := Exec(ks, cmds[0]);
      var (ks2, rs) := Run(ks1, cmds[1..]);
      (ks2, [r] + rs)
  }

  /** Every summary in the keyspace is the empty one. */
  predicate OnlyEmptySummaries(ks: map<string, Slot>) {
    forall k :: k in ks && ks[k].Summary? ==> ks[k].stats == Default()
  }

  /** The results the two commands can produce on a keyspace of empty summaries. */
  predicate ReachableResult(r: CommandResult) {
    r == Err(MissingKeyArgument) || r == Ok(Integer(0)) || r == Ok(Integer(1))
    || r == Ok(Null) || r == Ok(Array(InfoItems(Default())))
  }

  /** The keys that a successful ns.create among the commands writes. */
  function CreatedKeys(cmds: seq<Command>): set<string>
    decreases |cmds|
  {
    if cmds == [] then {}
    else
      var c := cmds[0];
      (if c.CreateCmd? && |c.args| >= 2 && c.storeOk then {c.args[1]} else {}) + CreatedKeys(cmds[1..])
  }

  /** One command keeps the keyspace free of non-empty summaries and gives a reachable result. */
  lemma ExecKeepsSummariesEmpty(ks: map<string, Slot>, c: Command)
    requires OnlyEmptySummaries(ks)
    ensures OnlyEmptySummaries(Exec(ks, c).0)
    ensures ReachableResult(Exec(ks, c).1)
  {
  }

  /**
    Over any sequence of commands the keyspace only ever holds empty
    summaries (besides values of other types), and every result is one of
    the reachable ones.
   */
  lemma {:induction false} RunKeepsSummariesEmpty(ks: map<string, Slot>, cmds: seq<Command>)
    requires OnlyEmptySummaries(ks)
    ensures OnlyEmptySummaries(Run(ks, cmds).0)
    ensures forall i :: 0 <= i < |cmds| ==> ReachableResult(Run(ks, cmds).1[i])
    decreases |cmds|
  {
    if cmds != [] {
      ExecKeepsSummariesEmpty(ks, cmds[0]);
      RunKeepsSummariesEmpty(Exec(ks, cmds[0]).0, cmds[1..]);
    }
  }

  /**
    The keys present after a sequence of commands are those present before
    and those a successful ns.create wrote; ns.info and failed stores add
    none, and no command removes one.
   */
  lemma {:induction false} RunKeys(ks: map<string, Slot>, cmds: seq<Command>)
    ensures Run(ks, cmds).0.Keys == ks.Keys + CreatedKeys(cmds)
    decreases |cmds|
  {
    if cmds != [] {
      RunKeys(Exec(ks, cmds[0]).0, cmds[1..]);
    }
  }

  /**
    The slot at every key after a sequence of commands: a key that held
    another type keeps it, a key a successful ns.create wrote holds the empty
    summary, and every other key keeps its old slot.
   */
  lemma {:induction false} RunSlots(ks: map<string, Slot>, cmds: seq<Command>, k: string)
    requires k in Run(ks, cmds).0
    ensures HoldsForeign(ks, k) ==> Run(ks, cmds).0[k] == ks[k]
    ensures !HoldsForeign(ks, k) && k in CreatedKeys(cmds) ==> Run(ks, cmds).0[k] == Summary(Default())
    ensures k !in CreatedKeys(cmds) ==> k in ks && Run(ks, cmds).0[k] == ks[k]
    decreases |cmds|
  {
    if cmds != [] {
      var ks1 := Exec(ks, cmds[0]).0;
      RunKeys(ks1, cmds[1..]);
      RunSlots(ks1, cmds[1..], k);
    }
  }

  /** A sequence of ns.info commands leaves the keyspace exactly as it was. */
  lemma {:induction false} InfoOnlyRunIsReadOnly(ks: map<string, Slot>, cmds: seq<Command>)
    requires forall i :: 0 <= i < |cmds| ==> cmds[i].InfoCmd?
    ensures Run(ks, cmds).0 == ks
    decreases |cmds|
  {
    if cmds != [] {
      InfoOnlyRunIsReadOnly(ks, cmds[1..]);
    }
  }
}
