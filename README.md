# RedisNumbersStats: the summary value and its two commands

A Dafny model of the Redis module "rns", which registers the data type
`Redis-NSS` (version 1) and two commands. The value under a key is a
`SummaryStatistics` record: a signed 64-bit `count` and the doubles `min`,
`max` and `sum`. Its default is the empty summary. In that summary `min` and
`max` hold sentinels: `min` holds `f64::MAX` and `max` holds `f64::MIN`.

- `ns.create key` stores a fresh empty summary under the key. When the
  store succeeds, it replaces the summary the key held, if any, and replies
  1. When the store fails, it replies 0 and nothing changes. The store
  fails on a key that holds a value of another type.
- `ns.info key` opens the key read-only. It replies Null when the key is
  absent or holds another type. Otherwise it replies with an eight-item
  array: `Count, <int>, Min, <float|N/A>, Max, <float|N/A>, Sum, <float>`.
  A sentinel is reported as the text `N/A`.

Files:

- `stats.dfy` (module `Stats`): the record, the `i64` count type, the two
  sentinels (the finite extremes of the double type, written out exactly as
  reals) and the default value.
- `replies.dfy` (module `Replies`): reply values and the eight-item summary
  reply. It also gives a client-side reader `ParseInfo` of that reply, which
  is the reply's inverse.
- `commands.dfy` (module `Commands`): a slot is either `Summary` or
  `Foreign`. The keyspace is a class over `map<string, Slot>`. `Create` and
  `Info` are methods proved against the pure `CreateCommand` and
  `InfoCommand`.
- `replay.dfy` (module `Replay`): runs a sequence of commands in order, as
  the host dispatches them. It proves what any such run can reach.
- `wrappers.dfy` (module `Wrappers`): `Option`.

The sentinels are the finite `f64::MAX` and `f64::MIN`
(src/lib.rs:48-49), not positive and negative infinity.

## Model

| member | source | states |
|---|---|---|
| Stats.Default | src/lib.rs:44-53 | the empty summary has count 0 and sum 0.0; both extremes hold their sentinels, so min lies above max |
| Replies.ReportExtreme | src/lib.rs:82-92 | a reported extreme is "N/A" exactly when it equals its sentinel; otherwise it is the number itself |
| Replies.InfoItems | src/lib.rs:78-95 | the summary reply has 8 items; "Count", "Min", "Max", "Sum" sit at the even positions in that order; Count is always Integer(count) and Sum always Float(sum); Min is "N/A" iff min == f64::MAX, else Float(min); Max is "N/A" iff max == f64::MIN, else Float(max) |
| Replies.ParseInfoItems | src/lib.rs:78-95 | a client reading the summary reply (with "N/A" read back as the sentinel) recovers the stored summary exactly |
| Replies.ParseInfoExact | src/lib.rs:78-95 | any item sequence a client reads as a summary is exactly the reply sent for it; in particular the sentinels are never sent as numbers |
| Replies.InfoItemsInjective | src/lib.rs:78-95 | two different summaries never produce the same reply |
| Replies.InfoItemsOfDefault | src/lib.rs:78-95 | the empty summary is reported as Count 0, Min N/A, Max N/A, Sum 0.0 |
| Commands.InfoReply | src/lib.rs:76-97 | the reply is Null exactly when the key is absent or holds another type; otherwise it is an array that reads back as the stored summary, and the only array that does (so the sentinels are sent as "N/A") |
| Commands.InfoCommand | src/lib.rs:70-99 | ns.info fails exactly when no key argument is given; otherwise it replies from the key's current slot |
| Commands.CreateCommand | src/lib.rs:57-68 | ns.create fails exactly when no key argument is given; when the host's store succeeds and the key does not hold another type, the empty summary goes under the key, replacing any summary there, and the reply is 1; otherwise the keyspace is unchanged and the reply is 0, never an error; other keys are untouched |
| Commands.Keyspace.Create | src/lib.rs:57-68 | the method's new keyspace and result are those of CreateCommand on the old keyspace |
| Commands.Keyspace.Info | src/lib.rs:70-99 | the method builds the reply item by item and returns InfoCommand's result; it has no modifies clause, so the keyspace is unchanged |
| Commands.InfoAfterCreate | src/lib.rs:57-99 | with the host's store succeeding, ns.info right after ns.create on the same key reports the empty summary; on a key of another type the create is refused and ns.info reports Null |
| Replay.Run | src/lib.rs:109-111 | a run gives exactly one result per command |
| Replay.ExecKeepsSummariesEmpty | src/lib.rs:57-99 | one command keeps every stored summary empty and gives one of the reachable results |
| Replay.RunKeepsSummariesEmpty | src/lib.rs:57-99 | over any command sequence, every summary in the keyspace stays the empty one; every result is a missing-key error, Integer 0 or 1, Null, or the empty-summary reply |
| Replay.RunKeys | src/lib.rs:57-68 | the keys after a run are the keys before plus those written by a successful ns.create; no command removes a key |
| Replay.RunSlots | src/lib.rs:57-99 | after a run, a key of another type keeps its value, a key a successful ns.create wrote holds the empty summary, and every other key keeps its old slot |
| Replay.InfoOnlyRunIsReadOnly | src/lib.rs:70-99 | any sequence of ns.info commands leaves the keyspace exactly as it was |

## Left out

- Registration mechanics: how the type (`src/lib.rs:13-32`) and the
  commands (`src/lib.rs:103-113`) are registered with the host is not
  modelled. What registration decides is modelled: the module registers
  only ns.create and ns.info (src/lib.rs:109-111), and ns.info is
  read-only. Every type hook is `None` (src/lib.rs:18-30), so no summary
  enters the keyspace except through ns.create, which `Replay` relies on.
- Argument handling and key opening: the arguments are a `seq<string>` with
  the command name first. The key is the second argument, and further
  arguments are ignored. A missing key argument is the error
  `MissingKeyArgument`. The library reports it under its own name, and its
  text is not part of this model. The key is rebuilt from a Rust `String`
  (src/lib.rs:59-60, 72-73), so the model's `string` covers only key names
  that are valid UTF-8. What the host does with other key names is not
  part of this model.
- The store call of ns.create (src/lib.rs:64): the library code behind
  it is not part of this model. The model takes two things from that
  library: the store refuses a key that holds a value of another type, and
  a failed store leaves the keyspace unchanged. Any other failure, such as
  one from the host, is the input `storeOk`.
- The type check of `get_value` is the `Foreign` slot. An absent key and a
  key of another type both give Null, as the source does.
- Floating point: doubles are exact reals. NaN and the infinities are not
  represented. The handlers only compare against the sentinels and do no
  arithmetic.
- Concurrency and locking belong to the host; nothing here is concurrent.
- The module registers only ns.create and ns.info (src/lib.rs:109-111).
  Neither changes a stored summary, and every type hook is `None`
  (src/lib.rs:18-30). There is no other operation on the value to model.
