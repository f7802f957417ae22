/**
  The two commands, ns.create and ns.info, over the host's keyspace. A key
  holds either a summary of this module's type or a value of some other
  type; the host's key handles are reduced to a lookup in a map. The argument
  vector holds the command name first and the key name second; further
  arguments are ignored. Whether the host's store call succeeds is an input.
 */
module Commands {
  import opened Wrappers
  import opened Stats
  import opened Replies

  /** What a key of the keyspace holds. */
  datatype Slot = Summary(stats: SummaryStatistics) | Foreign

  /** The failure a handler reports itself: the key argument is missing. */
  datatype CommandError = MissingKeyArgument

  datatype CommandResult = Ok(reply: Reply) | Err(error: CommandError)

  function Lookup(ks: map<string, Slot>, key: string): Option<Slot>
  {
    if key in ks then Some(ks[key]) else None
  }

  /**
    The reply of ns.info for what the key holds: Null when the key is absent
    or holds another type, otherwise the summary's label/value array.
   */
  function InfoReply(slot: Option<Slot>): (r: Reply)
    ensures r == Null <==> slot.None? || slot.value.Foreign?
    ensures r != Null ==> r.Array? && ParseInfo(r.items) == Some(slot.value.stats)
    ensures r != Null ==> forall items :: ParseInfo(items) == Some(slot.value.stats) ==> r.items == items
  {
    match slot
    case Some(Summary(s)) => Array(InfoItems(s))
    case _ => Null
  }

  /**
    ns.info as a function of the keyspace: it fails only when no key is
    given, and otherwise answers from the key's current slot.
   */
  function InfoCommand(ks: map<string, Slot>, args: seq<string>): (r: CommandResult)
    ensures r.Err? <==> |args| < 2
    ensures |args| >= 2 ==> r.reply == InfoReply(Lookup(ks, args[1]))
  {
    if |args| < 2 then Err(MissingKeyArgument)
    else Ok(InfoReply(Lookup(ks, args[1])))
  }

  /** The key holds a value of another type, which the store's type check refuses to overwrite. */
  predicate HoldsForeign(ks: map<string, Slot>, key: string) {
    key in ks && ks[key].Foreign?
  }

  /**
    ns.create as a function of the keyspace: the new keyspace and the result.
    `storeOk` is the host's part of the store's outcome; the store also fails
    when the key holds a value of another type. A successful store puts an
    empty summary under the key, replacing any summary there, and replies 1;
    a failed store changes nothing and replies 0, never an error.
   */
  function CreateCommand(ks: map<string, Slot>, args: seq<string>, storeOk: bool)
    : (out: (map<string, Slot>, CommandResult))
    ensures out.1.Err? <==> |args| < 2
    ensures out.1.Ok? ==> out.1.reply == Integer(if storeOk && !HoldsForeign(ks, args[1]) then 1 else 0)
    ensures out.1.Err? || !storeOk || HoldsForeign(ks, args[1]) ==> out.0 == ks
    ensures |args| >= 2 && storeOk && !HoldsForeign(ks, args[1]) ==>
      out.0.Keys == ks.Keys + {args[1]} && out.0[args[1]] == Summary(Default())
    ensures forall k :: k in ks && (|args| < 2 || k != args[1]) ==> k in out.0 && out.0[k] == ks[k]
  {
    if |args| < 2 then (ks, Err(MissingKeyArgument))
    else if storeOk && !HoldsForeign(ks, args[1]) then (ks[args[1] := Summary(Default())], Ok(Integer(1)))
    else (ks, Ok(Integer(0)))
  }

  /** The host's keyspace, as far as the two commands see it. */
  class Keyspace {
    var slots: map<string, Slot>

    constructor (initial: map<string, Slot>)
      ensures slots == initial
    {
      slots := initial;
    }

    /** ns.create: writes an empty summary under the key if the store succeeds. */
    method Create(args: seq<string>, storeOk: bool) returns (r: CommandResult)
      modifies this
      ensures (slots, r) == CreateCommand(old(slots), args, storeOk)
    {
      if |args| < 2 {
        return Err(MissingKeyArgument);
      }
      var key := args[1];
      var ss := Default();
      var sameType := key !in slots || slots[key].Summary?;
      if storeOk && sameType {
        slots := slots[key := Summary(ss)];
        r := Ok(Integer(1));
      } else {
        r := Ok(Integer(0));
      }
    }

    /** ns.info: opens the key read-only and reports what it holds. */
    method Info(args: seq<string>) returns (r: CommandResult)
      ensures r == InfoCommand(slots, args)
    {
      if |args| < 2 {
        return Err(MissingKeyArgument);
      }
      var key := args[1];
      if key in slots && slots[key].Summary? {
        var ss := slots[key].stats;
        var res: seq<Reply> := [];
        res := res + [SimpleString("Count")];
        res := res + [Integer(ss.count)];
        res := res + [SimpleString("Min")];
        if ss.min == F64_MAX {
          res := res + [NotAvailable];
        } else {
          res := res + [Float(ss.min)];
        }
        res := res + [SimpleString("Max")];
        if ss.max == F64_MIN {
          res := res + [NotAvailable];
        } else {
          res := res + [Float(ss.max)];
        }
        res := res + [SimpleString("Sum")];
        res := res + [Float(ss.sum)];
        r := Ok(Array(res));
      } else {
        r := Ok(Null);
      }
    }
  }

  /**
    ns.info right after ns.create on the same key, with the host's store
    succeeding: the empty summary, unless the key holds a value of another
    type, which the create leaves in place and the info reports as Null.
   */
  lemma InfoAfterCreate(ks: map<string, Slot>, key: string)
    ensures !HoldsForeign(ks, key) ==>
      InfoCommand(CreateCommand(ks, ["ns.create", key], true).0, ["ns.info", key])
        == Ok(Array(InfoItems(Default())))
    ensures HoldsForeign(ks, key) ==>
      InfoCommand(CreateCommand(ks, ["ns.create", key], true).0, ["ns.info", key]) == Ok(Null)
  {
  }
}
