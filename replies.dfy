/**
  The reply values the two commands send back, and the eight-item
  label/value array that reports a summary. The sentinels of a summary never
  reach the client as numbers: each one is turned into the text "N/A".
 */
module Replies {
  import opened Wrappers
  import opened Stats

  /** The subset of the host's reply values that the commands produce. */
  datatype Reply =
    | Null
    | Integer(n: i64)
    | Float(x: real)
    | SimpleString(text: string)
    | Array(items: seq<Reply>)

  /** The text that stands for a minimum or maximum with no observation behind it. */
  const NotAvailable: Reply := SimpleString("N/A")

  /** The labels of the summary reply, in the order they are sent. */
  const InfoLabels: seq<string> := ["Count", "Min", "Max", "Sum"]

  /** A minimum or maximum as reported: "N/A" for its sentinel, the number otherwise. */
  function ReportExtreme(value: real, sentinel: real): (r: Reply)
    ensures r == NotAvailable <==> value == sentinel
    ensures value != sentinel ==> r == Float(value)
  {
    if value == sentinel then NotAvailable else Float(value)
  }

  /**
    The items of the reply to a summary: each label followed by its value.
    Count and Sum are always numbers; Min and Max are "N/A" exactly when they
    hold their sentinels.
   */
  function InfoItems(s: SummaryStatistics): (items: seq<Reply>)
    ensures |items| == 2 * |InfoLabels|
    ensures forall i :: 0 <= i < |InfoLabels| ==> items[2 * i] == SimpleString(InfoLabels[i])
    ensures items[1] == Integer(s.count) && items[7] == Float(s.sum)
    ensures items[3] == NotAvailable <==> MinIsSentinel(s)
    ensures !MinIsSentinel(s) ==> items[3] == Float(s.min)
    ensures items[5] == NotAvailable <==> MaxIsSentinel(s)
    ensures !MaxIsSentinel(s) ==> items[5] == Float(s.max)
  {
    [SimpleString("Count"), Integer(s.count),
     SimpleString("Min"), ReportExtreme(s.min, F64_MAX),
     SimpleString("Max"), ReportExtreme(s.max, F64_MIN),
     SimpleString("Sum"), Float(s.sum)]
  }

  /**
    Reads a reported minimum or maximum back, mapping "N/A" to the sentinel.
    The sentinel itself is never sent as a number, so a float equal to it is
    not a valid report.
   */
  function ReadExtreme(item: Reply, sentinel: real): Option<real>
  {
    match item
    case Float(x) => if x == sentinel then None else Some(x)
    case SimpleString(t) => if t == "N/A" then Some(sentinel) else None
    case _ => None
  }

  /**
    How a client reads a summary reply: eight items, the four labels in
    order, each followed by a value of the right kind. Anything else is not a
    summary reply.
   */
  function ParseInfo(items: seq<Reply>): (r: Option<SummaryStatistics>)
    ensures r.Some? ==> |items| == 8 && items[0] == SimpleString("Count") && items[2] == SimpleString("Min")
    ensures r.Some? ==> items[4] == SimpleString("Max") && items[6] == SimpleString("Sum")
  {
    if |items| == 8
       && items[0] == SimpleString("Count") && items[1].Integer?
       && items[2] == SimpleString("Min") && ReadExtreme(items[3], F64_MAX).Some?
       && items[4] == SimpleString("Max") && ReadExtreme(items[5], F64_MIN).Some?
       && items[6] == SimpleString("Sum") && items[7].Float?
    then Some(SummaryStatistics(items[1].n, ReadExtreme(items[3], F64_MAX).value,
                                ReadExtreme(items[5], F64_MIN).value, items[7].x))
    else None
  }

  /** The summary reply loses nothing: a client reading it recovers the stored value. */
  lemma ParseInfoItems(s: SummaryStatistics)
    ensures ParseInfo(InfoItems(s)) == Some(s)
  {
  }

  /**
    The summary reply is the only reading of a summary: any item sequence a
    client reads as `s` is exactly the reply sent for `s`.
   */
  lemma ParseInfoExact(items: seq<Reply>, s: SummaryStatistics)
    requires ParseInfo(items) == Some(s)
    ensures items == InfoItems(s)
  {
  }

  /** Two different summaries never produce the same reply. */
  lemma InfoItemsInjective(s: SummaryStatistics, t: SummaryStatistics)
    ensures InfoItems(s) == InfoItems(t) ==> s == t
  {
  }

  /** The reply for the empty summary, as the client sees it. */
  lemma InfoItemsOfDefault()
    ensures InfoItems(Default()) ==
      [SimpleString("Count"), Integer(0), SimpleString("Min"), NotAvailable,
       SimpleString("Max"), NotAvailable, SimpleString("Sum"), Float(0.0)]
  {
  }
}
