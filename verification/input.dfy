/**
 The validated-input retry loop shared by the customer-count prompt and the
 quantity prompt: lines are read one at a time, and every line that is not a
 positive integer is rejected and the prompt repeated.
 */
module Input {

  import opened Wrappers

  /**
   One line of standard input, already classified by the integer parser:
   either it parses as an integer, or the parser rejects it.
   */
  datatype Line = Number(value: int) | NotANumber

  /** A line the retry loop accepts: an integer greater than zero. */
  predicate Accepted(line: Line) {
    line.Number? && line.value > 0
  }

  /** An accepted value together with how many lines were read to get it. */
  datatype Read = Read(value: nat, consumed: nat)

  /**
   Runs the retry loop over `lines`. The result is the first accepted value
   and the number of lines consumed up to and including it, or `None` when
   the input ends before any line is accepted.
   */
  function ReadPositive(lines: seq<Line>): (r: Option<Read>)
    ensures r.None? <==> forall i :: 0 <= i < |lines| ==> !Accepted(lines[i])
    ensures r.Some? ==>
              && 1 <= r.value.consumed <= |lines|
              && r.value.value > 0
              && lines[r.value.consumed - 1] == Number(r.value.value)
              && forall i :: 0 <= i < r.value.consumed - 1 ==> !Accepted(lines[i])
  {
    if |lines| == 0 then None
    else if Accepted(lines[0]) then Some(Read(lines[0].value, 1))
    else
      match ReadPositive(lines[1..])
      case None => None
      case Some(rest) => Some(Read(rest.value, rest.consumed + 1))
  }

  /** A positive integer on the first line is read at once, whatever follows it. */
  lemma ReadCount(n: nat, rest: seq<Line>)
    requires n > 0
    ensures ReadPositive([Number(n)] + rest) == Some(Read(n, 1))
  {
  }

  /**
   Rejected lines in front of the input are skipped without effect: the loop
   reads the same value, and just that many more lines.
   */
  lemma {:induction false} ReadPositiveSkipsRejected(rejected: seq<Line>, lines: seq<Line>)
    requires forall i :: 0 <= i < |rejected| ==> !Accepted(rejected[i])
    ensures ReadPositive(rejected + lines).Some? <==> ReadPositive(lines).Some?
    ensures ReadPositive(lines).Some? ==>
              ReadPositive(rejected + lines).value
              == Read(ReadPositive(lines).value.value, ReadPositive(lines).value.consumed + |rejected|)
  {
    if |rejected| > 0 {
      assert (rejected + lines)[1..] == rejected[1..] + lines;
      ReadPositiveSkipsRejected(rejected[1..], lines);
    } else {
      assert rejected + lines == lines;
    }
  }
}
