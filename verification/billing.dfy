/**
 One run of the billing program over a given standard input: read the number
 of customers, serve customers 1..N (one validated quantity each, one
 discarded acknowledgement line between customers), then summarize.
 */
module Billing {

  import opened Wrappers
  import opened Input
  import opened Sales
  import opened Session
  import opened Summary

  /** A customer's record and the number of input lines read to build it. */
  datatype Served = Served(sale: Sale, consumed: nat)

  /**
   Serves customer number `customer`: the quantity prompt is repeated until a
   positive integer arrives, which is then priced. `None` when the input ends
   first.
   */
  function ProcessCustomer(customer: nat, lines: seq<Line>): (r: Option<Served>)
    ensures r.None? <==> forall i :: 0 <= i < |lines| ==> !Accepted(lines[i])
    ensures r.Some? ==>
              && WellFormed(r.value.sale)
              && r.value.sale.customer == customer
              && 1 <= r.value.consumed <= |lines|
              && lines[r.value.consumed - 1] == Number(r.value.sale.quantity)
              && forall i :: 0 <= i < r.value.consumed - 1 ==> !Accepted(lines[i])
    ensures r.Some? <==> ReadPositive(lines).Some?
    ensures r.Some? ==>
              && r.value.sale == MakeSale(customer, ReadPositive(lines).value.value)
              && r.value.consumed == ReadPositive(lines).value.consumed
  {
    match ReadPositive(lines)
    case None => None
    case Some(read) => Some(Served(MakeSale(customer, read.value), read.consumed))
  }

  /**
   The quantities the customer loop reads for `n` customers from `lines`:
   one retry loop per customer, each starting right after the previous
   customer's accepted line, with one acknowledgement line read and ignored
   between consecutive customers. `None` when the input ends first.
   */
  function ReadQuantities(n: nat, lines: seq<Line>): (r: Option<seq<nat>>)
    ensures r.Some? ==> |r.value| == n && AllPositive(r.value)
  {
    if n == 0 then Some([])
    else
      match ReadPositive(lines)
      case None => None
      case Some(read) =>
        var rest := lines[read.consumed..];
        if n == 1 then Some([read.value])
        else if |rest| == 0 then None
        else
          match ReadQuantities(n - 1, rest[1..])
          case None => None
          case Some(more) => Some([read.value] + more)
  }

  /**
   One customer's step of `ReadQuantities`: the retry loop reads a value,
   and unless it was the last customer one more line is skipped before the
   remaining customers are read from line `next`.
   */
  lemma ReadQuantitiesStep(m: nat, lines: seq<Line>, read: Read, next: nat)
    requires m >= 1 && ReadPositive(lines) == Some(read)
    requires next == if m > 1 then read.consumed + 1 else read.consumed
    requires next <= |lines|
    ensures ReadQuantities(m, lines) == Prepend([read.value], ReadQuantities(m - 1, lines[next..]))
  {
    if m > 1 {
      assert lines[read.consumed..][1..] == lines[next..];
    } else {
      assert [read.value] + [] == [read.value];
    }
  }

  /**
   `ReadQuantities` fails when the input runs out during a customer's retry
   loop, or right after it when an acknowledgement line is still due.
   */
  lemma ReadQuantitiesRunsOut(m: nat, lines: seq<Line>)
    requires m >= 1
    requires ReadPositive(lines).None? || (m > 1 && ReadPositive(lines).value.consumed == |lines|)
    ensures ReadQuantities(m, lines).None?
  {
  }

  /** `done` followed by the quantities in `later`, if `later` holds any. */
  function Prepend(done: seq<nat>, later: Option<seq<nat>>): (r: Option<seq<nat>>)
    ensures r.Some? <==> later.Some?
    ensures r.Some? ==> |r.value| == |done| + |later.value|
    ensures r.Some? ==> r.value[..|done|] == done && r.value[|done|..] == later.value
  {
    match later
    case None => None
    case Some(qs) => Some(done + qs)
  }

  /** Serving no customers reads nothing and cannot fail. */
  lemma ReadNoQuantities(lines: seq<Line>)
    ensures ReadQuantities(0, lines) == Some([])
  {
  }

  /** Prepending no quantities leaves the read unchanged. */
  lemma PrependNothing(later: Option<seq<nat>>)
    ensures Prepend([], later) == later
  {
    if later.Some? {
      assert [] + later.value == later.value;
    }
  }

  /** Moving one value from the later part to the end of `done` changes nothing. */
  lemma PrependShift(done: seq<nat>, v: nat, later: Option<seq<nat>>)
    ensures Prepend(done, Prepend([v], later)) == Prepend(done + [v], later)
  {
    if later.Some? {
      assert done + ([v] + later.value) == (done + [v]) + later.value;
    }
  }

  /**
   A well-behaved session transcript: quantity lines for customers 1..N, with
   one acknowledgement line of any content between consecutive customers.
   */
  function Transcript(quantities: seq<nat>, acks: seq<Line>): (lines: seq<Line>)
    requires |quantities| >= 1 && |acks| == |quantities| - 1
    ensures |lines| == 2 * |quantities| - 1
  {
    if |quantities| == 1 then [Number(quantities[0])]
    else [Number(quantities[0]), acks[0]] + Transcript(quantities[1..], acks[1..])
  }

  /**
   On a transcript with positive quantities the customer loop reads exactly
   those quantities, whatever the acknowledgement lines hold.
   */
  lemma {:induction false} ReadQuantitiesOfTranscript(quantities: seq<nat>, acks: seq<Line>)
    requires |quantities| >= 1 && |acks| == |quantities| - 1
    requires AllPositive(quantities)
    ensures ReadQuantities(|quantities|, Transcript(quantities, acks)) == Some(quantities)
  {
    var lines := Transcript(quantities, acks);
    assert lines[0] == Number(quantities[0]);
    assert ReadPositive(lines) == Some(Read(quantities[0], 1));
    if |quantities| > 1 {
      var tail := Transcript(quantities[1..], acks[1..]);
      assert lines[2..] == tail;
      ReadQuantitiesStep(|quantities|, lines, Read(quantities[0], 1), 2);
      ReadQuantitiesOfTranscript(quantities[1..], acks[1..]);
      assert ReadQuantities(|quantities|, lines) == Prepend([quantities[0]], Some(quantities[1..]));
      assert [quantities[0]] + quantities[1..] == quantities;
    } else {
      ReadQuantitiesStep(1, lines, Read(quantities[0], 1), 1);
      assert quantities == [quantities[0]];
    }
  }

  /**
   The quantities a whole day reads from `lines`: the count prompt's retry
   loop accepts N, then the customer loop reads N quantities from the lines
   after it. `None` when the input ends first.
   */
  function DayRead(lines: seq<Line>): (r: Option<seq<nat>>)
    ensures r.Some? ==> ReadPositive(lines).Some? && |r.value| == ReadPositive(lines).value.value
    ensures r.Some? ==> |r.value| >= 1 && AllPositive(r.value)
  {
    match ReadPositive(lines)
    case None => None
    case Some(count) => ReadQuantities(count.value, lines[count.consumed..])
  }

  /**
   A day whose input is the customer count followed by a transcript: the
   count prompt reads N from the first line and the customer loop then reads
   exactly the transcript's quantities, so the run completes with the
   session of those quantities.
   */
  lemma CleanInputCompletes(quantities: seq<nat>, acks: seq<Line>)
    requires |quantities| >= 1 && |acks| == |quantities| - 1
    requires AllPositive(quantities)
    ensures DayRead([Number(|quantities|)] + Transcript(quantities, acks)) == Some(quantities)
  {
    var lines := [Number(|quantities|)] + Transcript(quantities, acks);
    ReadCount(|quantities|, Transcript(quantities, acks));
    assert lines[1..] == Transcript(quantities, acks);
    ReadQuantitiesOfTranscript(quantities, acks);
  }

  /**
   Rejected lines (a word, a negative number, zero) are skipped by both
   prompts: this input still serves two customers buying 3 and 10 tires.
   */
  lemma RetriedInputExample()
    ensures DayRead([NotANumber, Number(0), Number(2), Number(-3), Number(3),
                     NotANumber, NotANumber, Number(10)]) == Some([3, 10])
  {
    var lines := [NotANumber, Number(0), Number(2), Number(-3), Number(3),
                  NotANumber, NotANumber, Number(10)];
    var rest := lines[3..];
    assert rest == [Number(-3), Number(3), NotANumber, NotANumber, Number(10)];
    assert ReadPositive(rest) == Some(Read(3, 2));
    assert rest[3..] == [NotANumber, Number(10)];
    assert ReadPositive(rest[3..]) == Some(Read(10, 2));
    ReadQuantitiesStep(2, rest, Read(3, 2), 3);
    ReadQuantitiesStep(1, rest[3..], Read(10, 2), 2);
    ReadNoQuantities(rest[3..][2..]);
    assert [10] + [] == [10] && [3] + [10] == [3, 10];
  }

  /** The records of the day and the summary printed from them. */
  datatype Day = Day(sales: seq<Sale>, report: Report)

  /**
   One pass of the customer loop for customer number `customer`, with
   `remaining` customers left including this one: serves the customer from
   the input at `pos`, then, unless this was the last customer, reads and
   ignores the acknowledgement line. Returns the record and the position of
   the next unread line.
   */
  method ServeCustomer(customer: nat, remaining: nat, lines: seq<Line>, pos: nat)
    returns (r: Option<(Sale, nat)>)
    requires remaining >= 1 && pos <= |lines|
    ensures var read := ReadPositive(lines[pos..]);
            r.None? <==> read.None? || (remaining > 1 && pos + read.value.consumed == |lines|)
    ensures var read := ReadPositive(lines[pos..]);
            r.Some? ==>
              && read.Some?
              && r.value.0 == MakeSale(customer, read.value.value)
              && r.value.1 == pos + read.value.consumed + (if remaining > 1 then 1 else 0)
    ensures r.None? ==> ReadQuantities(remaining, lines[pos..]).None?
    ensures r.Some? ==>
              && pos < r.value.1 <= |lines|
              && r.value.0.quantity > 0
              && r.value.0 == MakeSale(customer, r.value.0.quantity)
              && ReadQuantities(remaining, lines[pos..])
                 == Prepend([r.value.0.quantity], ReadQuantities(remaining - 1, lines[r.value.1..]))
  {
    var served := ProcessCustomer(customer, lines[pos..]);
    if served.None? {
      ReadQuantitiesRunsOut(remaining, lines[pos..]);
      return None;
    }
    var after := pos + served.value.consumed;
    var next: nat;
    if remaining > 1 {
      // The acknowledgement line is read and discarded.
      if after == |lines| {
        ReadQuantitiesRunsOut(remaining, lines[pos..]);
        return None;
      }
      next := after + 1;
    } else {
      next := after;
    }
    ReadQuantitiesStep(remaining, lines[pos..], ReadPositive(lines[pos..]).value, next - pos);
    assert lines[pos..][next - pos..] == lines[next..];
    r := Some((served.value.sale, next));
  }

  /**
   The state of the customer loop after `|sales|` of `n` customers: the
   records are the session of the quantities read so far, and reading the
   remaining customers from line `pos` on completes the day's read.
   */
  ghost predicate SessionSoFar(n: nat, lines: seq<Line>, pos: nat, sales: seq<Sale>) {
    && |sales| <= n
    && pos <= |lines|
    && AllPositive(Quantities(sales))
    && sales == SessionOf(Quantities(sales))
    && ReadQuantities(n, lines) == Prepend(Quantities(sales), ReadQuantities(n - |sales|, lines[pos..]))
  }

  /** Before the first customer nothing has been read. */
  lemma SessionSoFarStart(n: nat, lines: seq<Line>)
    ensures SessionSoFar(n, lines, 0, [])
  {
    assert lines[0..] == lines;
    PrependNothing(ReadQuantities(n, lines));
  }

  /** Serving one more customer as `ServeCustomer` promises keeps the loop state. */
  lemma SessionSoFarStep(n: nat, lines: seq<Line>, pos: nat, sales: seq<Sale>, sale: Sale, next: nat)
    requires SessionSoFar(n, lines, pos, sales) && |sales| < n
    requires pos < next <= |lines|
    requires sale.quantity > 0 && sale == MakeSale(|sales| + 1, sale.quantity)
    requires ReadQuantities(n - |sales|, lines[pos..])
             == Prepend([sale.quantity], ReadQuantities(n - |sales| - 1, lines[next..]))
    ensures SessionSoFar(n, lines, next, sales + [sale])
  {
    var qs := Quantities(sales);
    assert Quantities(sales + [sale]) == qs + [sale.quantity];
    SessionOfAppend(qs, sale.quantity);
    PrependShift(qs, sale.quantity, ReadQuantities(n - |sales| - 1, lines[next..]));
  }

  /** If the input runs out for the remaining customers, the day's read fails. */
  lemma SessionSoFarStop(n: nat, lines: seq<Line>, pos: nat, sales: seq<Sale>)
    requires SessionSoFar(n, lines, pos, sales) && |sales| < n
    requires ReadQuantities(n - |sales|, lines[pos..]).None?
    ensures ReadQuantities(n, lines).None?
  {
  }

  /** Once all N customers are served, the records are the session of the day's read. */
  lemma SessionSoFarDone(n: nat, lines: seq<Line>, pos: nat, sales: seq<Sale>)
    requires SessionSoFar(n, lines, pos, sales) && |sales| == n
    ensures ReadQuantities(n, lines) == Some(Quantities(sales))
    ensures sales == SessionOf(ReadQuantities(n, lines).value)
  {
    ReadNoQuantities(lines[pos..]);
    assert Quantities(sales) + [] == Quantities(sales);
  }

  /**
   The customer loop: serves customers 1..n from `lines`, reading one
   validated quantity per customer and discarding one acknowledgement line
   between consecutive customers. `None` when the input ends first.
   */
  method ServeCustomers(n: nat, lines: seq<Line>) returns (r: Option<seq<Sale>>)
    ensures r.Some? <==> ReadQuantities(n, lines).Some?
    ensures r.Some? ==> r.value == SessionOf(ReadQuantities(n, lines).value)
  {
    var pos: nat := 0;
    var sales: seq<Sale> := [];
    var customer := 1;
    SessionSoFarStart(n, lines);
    while customer <= n
      invariant customer == |sales| + 1
      invariant SessionSoFar(n, lines, pos, sales)
    {
      var served := ServeCustomer(customer, n - |sales|, lines, pos);
      if served.None? {
        SessionSoFarStop(n, lines, pos, sales);
        return None;
      }
      var (sale, next) := served.value;
      SessionSoFarStep(n, lines, pos, sales, sale, next);
      sales := sales + [sale];
      pos := next;
      customer := customer + 1;
    }
    SessionSoFarDone(n, lines, pos, sales);
    r := Some(sales);
  }

  /**
   The whole program over the input `lines`: the customer count, then the
   customer loop, then the summary. `None` when the input ends before the
   last customer's quantity has been read.
   */
  method RunDay(lines: seq<Line>) returns (r: Option<Day>)
    ensures r.Some? <==> DayRead(lines).Some?
    ensures r.Some? ==>
              && r.value.sales == SessionOf(DayRead(lines).value)
              && r.value.report == Summarize(r.value.sales)
  {
    var count := ReadPositive(lines);
    if count.None? {
      return None;
    }
    var served := ServeCustomers(count.value.value, lines[count.value.consumed..]);
    if served.None? {
      return None;
    }
    var report := ComputeSummary(served.value);
    r := Some(Day(served.value, report));
  }
}
