/** The line-number protocol of main.cpp: numbered lines are answered with ok, skip or rs. */
module LineNumbers {

  import opened Arithmetic

  /** `++x` on a 64-bit counter. */
  function NextNumber(x: uint64): uint64 {
    if x == UINT64_MAX then 0 else x + 1
  }

  /** A parsed G-code command; `body` stands for its other parameters. */
  datatype Line = Line(hasNumber: bool, number: uint64, validChecksum: bool, isM110: bool, body: int)

  /** A line reaching the main loop, whether the peripherals work, and whether running the command answers ok. */
  datatype Delivery = Delivery(line: Line, working: bool, succeeds: bool)

  datatype Reply =
    | Ok(number: uint64)
    | Skip(number: uint64)
    | Resend(number: uint64)
    | Plain            // ok without a number
    | Error

  datatype Outcome = Outcome(current: uint64, reply: Reply, executed: bool)

  /** A line that sets the expected number. */
  predicate Restarts(d: Delivery) {
    d.working && d.line.hasNumber && d.line.validChecksum && d.line.isM110
  }

  /** What the main loop does with one line while it expects number `current`. */
  function Process(current: uint64, d: Delivery): Outcome {
    var line := d.line;
    if !d.working then Outcome(current, Error, false)
    else if !line.hasNumber then Outcome(current, if line.isM110 || d.succeeds then Plain else Error, true)
    else if !line.validChecksum then Outcome(current, Resend(current), false)
    else if line.isM110 then Outcome(NextNumber(line.number), Ok(line.number), true)
    else if current == UINT64_MAX then Outcome(current, Error, false)
    else if line.number < current then Outcome(current, Skip(line.number), false)
    else if line.number > current then Outcome(current, Resend(current), false)
    else if d.succeeds then Outcome(NextNumber(current), Ok(line.number), true)
    else Outcome(current, Error, true)
  }

  /** The expected number after a run of lines. */
  function Expected(current: uint64, run: seq<Delivery>): uint64 {
    if run == [] then current else Process(Expected(current, run[..|run| - 1]), run[|run| - 1]).current
  }

  /** The lines acknowledged with a numbered ok, in order. */
  function Acknowledged(current: uint64, run: seq<Delivery>): seq<Line> {
    if run == [] then []
    else
      var last := run[|run| - 1];
      var reply := Process(Expected(current, run[..|run| - 1]), last).reply;
      Acknowledged(current, run[..|run| - 1]) + if reply.Ok? then [last.line] else []
  }

  function Numbers(lines: seq<Line>): seq<nat> {
    seq(|lines|, i requires 0 <= i < |lines| => lines[i].number)
  }

  function Range(from: nat, to: nat): seq<nat>
    requires from <= to
  {
    seq(to - from, i => from + i)
  }

  predicate NoRestart(run: seq<Delivery>) {
    forall i :: 0 <= i < |run| ==> !Restarts(run[i])
  }

  /** The protocol looks at a numbered line that does not restart the numbering. */
  predicate Looks(d: Delivery) {
    d.working && d.line.hasNumber && !d.line.isM110
  }

  /**
   One line that does not restart the numbering: when it is acknowledged, skipped and asked for again, and what that
   does.
   */
  lemma OneLine(current: uint64, d: Delivery)
    requires !Restarts(d)
    ensures var o := Process(current, d);
      && (o.reply.Ok? <==> Looks(d) && d.line.validChecksum && d.line.number == current < UINT64_MAX && d.succeeds)
      && (o.reply.Skip? <==> Looks(d) && d.line.validChecksum && d.line.number < current < UINT64_MAX)
      && (o.reply.Resend? <==>
          d.working && d.line.hasNumber && (!d.line.validChecksum || (d.line.number > current && !d.line.isM110)))
      && o.current == (if o.reply.Ok? then current + 1 else current)
      && (o.reply.Ok? ==> o.executed && o.reply.number == current)
      && (o.reply.Skip? ==> !o.executed && o.reply.number == d.line.number)
      && (o.reply.Resend? ==> !o.executed && o.reply.number == o.current)
      && (d.line.hasNumber && o.executed ==> d.line.number == current)
  {
  }

  /** Between restarts the acknowledged numbers are the consecutive numbers from the first expected one to the last. */
  lemma {:induction false} AcknowledgedInOrder(current: uint64, run: seq<Delivery>)
    requires NoRestart(run)
    ensures current <= Expected(current, run)
    ensures Numbers(Acknowledged(current, run)) == Range(current, Expected(current, run))
    decreases |run|
  {
    if run != [] {
      var front := run[..|run| - 1];
      AcknowledgedInOrder(current, front);
      OneLine(Expected(current, front), run[|run| - 1]);
      var acknowledged, line := Acknowledged(current, front), run[|run| - 1].line;
      assert Numbers(acknowledged + [line]) == Numbers(acknowledged) + [line.number];
    }
  }

  lemma {:induction false} RunSplits(current: uint64, a: seq<Delivery>, b: seq<Delivery>)
    ensures Expected(current, a + b) == Expected(Expected(current, a), b)
    ensures Acknowledged(current, a + b) == Acknowledged(current, a) + Acknowledged(Expected(current, a), b)
    decreases |b|
  {
    if b == [] {
      assert a + b == a;
    } else {
      RunSplits(current, a, b[..|b| - 1]);
      assert (a + b)[..|a + b| - 1] == a + b[..|b| - 1];
    }
  }

  /** A line numbered zero that would be acknowledged where zero is expected. */
  predicate IsZero(d: Delivery) {
    Looks(d) && d.line.validChecksum && d.line.number == 0 && d.succeeds
  }

  lemma {:induction false} StaysAtZero(run: seq<Delivery>)
    requires NoRestart(run)
    ensures Expected(0, run) == 0 <==> forall i :: 0 <= i < |run| ==> !IsZero(run[i])
    decreases |run|
  {
    if run != [] {
      var front := run[..|run| - 1];
      StaysAtZero(front);
      OneLine(Expected(0, front), run[|run| - 1]);
      assert forall i :: 0 <= i < |front| ==> front[i] == run[i];
    }
  }

  /**
   From one M110 up to the next: its number is acknowledged, then the numbers after it. They are consecutive unless the
   argument was the largest 64-bit number, after which the counter starts at zero again, and a line zero follows.
   */
  lemma AfterRestart(current: uint64, restart: Delivery, run: seq<Delivery>)
    requires Restarts(restart) && NoRestart(run)
    ensures var first, last := restart.line.number, Expected(current, [restart] + run);
      var numbers := Numbers(Acknowledged(current, [restart] + run));
      && NextNumber(first) <= last
      && numbers == [first] + Range(NextNumber(first), last)
      && (numbers == Range(first, first + |numbers|)
          <==> first < UINT64_MAX || forall i :: 0 <= i < |run| ==> !IsZero(run[i]))
  {
    var first := restart.line.number;
    RunSplits(current, [restart], run);
    assert [restart][..0] == [];
    assert Expected(current, [restart]) == NextNumber(first);
    assert Acknowledged(current, [restart]) == [restart.line];
    AcknowledgedInOrder(NextNumber(first), run);
    StaysAtZero(run);
    var acknowledged := Acknowledged(NextNumber(first), run);
    assert Numbers([restart.line] + acknowledged) == [first] + Numbers(acknowledged);
    InARow(first, Expected(NextNumber(first), run));
  }

  /** When the numbers from one restart on are in a row. */
  lemma InARow(first: uint64, last: uint64)
    requires NextNumber(first) <= last
    ensures var numbers := [first as nat] + Range(NextNumber(first), last);
      numbers == Range(first, first + |numbers|) <==> first < UINT64_MAX || last == 0
  {
    var numbers := [first as nat] + Range(NextNumber(first), last);
    if first == UINT64_MAX && last > 0 {
      assert numbers[1] == 0;
      assert Range(first, first + |numbers|)[1] == first + 1;
    }
  }

  /** The largest argument breaks the order: after it, line 0 is acknowledged. */
  lemma RestartAtMaximum()
    ensures var run := [Delivery(Line(true, UINT64_MAX, true, true, 0), true, true),
                        Delivery(Line(true, 0, true, false, 0), true, true)];
      Numbers(Acknowledged(0, run)) == [UINT64_MAX, 0]
  {
    var restart := Delivery(Line(true, UINT64_MAX, true, true, 0), true, true);
    var zero := Delivery(Line(true, 0, true, false, 0), true, true);
    RunSplits(0, [restart], [zero]);
    assert [restart][..0] == [] && [zero][..0] == [];
    assert [restart] + [zero] == [restart, zero];
    assert Acknowledged(0, [restart]) == [restart.line] && Acknowledged(0, [zero]) == [zero.line];
  }

  /** After a resend request the next acknowledged line is the one it names. */
  lemma ResendNamesNext(current: uint64, d: Delivery, run: seq<Delivery>)
    requires Process(current, d).reply.Resend? && NoRestart(run)
    ensures var named := Process(current, d).reply.number;
      && named == Process(current, d).current
      && (Acknowledged(named, run) != [] ==> Acknowledged(named, run)[0].number == named)
  {
    AcknowledgedInOrder(current, run);
    var acknowledged := Acknowledged(current, run);
    if acknowledged != [] {
      assert Numbers(acknowledged)[0] == acknowledged[0].number;
    }
  }

  /** Every numbered line that arrives intact is the line of the program with that number. */
  predicate FromProgram(program: seq<Line>, run: seq<Delivery>) {
    forall i :: 0 <= i < |run| && run[i].line.hasNumber && run[i].line.validChecksum ==>
      run[i].line.number < |program| && run[i].line == program[run[i].line.number]
  }

  /**
   However lines are lost, repeated, reordered or damaged, the acknowledged lines are the beginning of the program, each
   exactly once and in order.
   */
  lemma {:induction false} DeliversProgram(program: seq<Line>, run: seq<Delivery>)
    requires FromProgram(program, run) && NoRestart(run)
    ensures Expected(0, run) <= |program|
    ensures Acknowledged(0, run) == program[..Expected(0, run)]
    decreases |run|
  {
    if run != [] {
      var front := run[..|run| - 1];
      DeliversProgram(program, front);
      OneLine(Expected(0, front), run[|run| - 1]);
    }
  }

  /** The variable of `main` and the handling of a request around the commands themselves. */
  class Session {
    var currentCommandNumber: uint64

    constructor ()
      ensures currentCommandNumber == 0
    {
      currentCommandNumber := 0;
    }

    method Handle(d: Delivery) returns (reply: Reply, executed: bool)
      modifies this
      ensures Outcome(currentCommandNumber, reply, executed) == Process(old(currentCommandNumber), d)
    {
      executed := false;
      if !d.working {
        return Error, false;
      }
      var line := d.line;
      var response := "";
      if line.hasNumber {
        if !line.validChecksum {
          response := "rs";
        } else if line.isM110 {
          currentCommandNumber := line.number;
        } else if currentCommandNumber == UINT64_MAX {
          response := "Error: Max command number exceeded";
        } else if line.number < currentCommandNumber {
          response := "skip";
        } else if line.number > currentCommandNumber {
          response := "rs";
        }
      }
      if response == "" {
        executed := true;
        response := if line.isM110 || d.succeeds then "ok" else "Error";
      }
      if line.hasNumber && (response == "ok" || response == "rs" || response == "skip") {
        if response == "ok" {
          currentCommandNumber := NextNumber(currentCommandNumber);
        }
        reply := if response == "rs" then Resend(currentCommandNumber)
                 else if response == "skip" then Skip(line.number) else Ok(line.number);
      } else {
        reply := if response == "ok" then Plain else Error;
      }
    }

    method HandleAll(run: seq<Delivery>) returns (acknowledged: seq<Line>)
      modifies this
      ensures currentCommandNumber == Expected(old(currentCommandNumber), run)
      ensures acknowledged == Acknowledged(old(currentCommandNumber), run)
    {
      acknowledged := [];
      for i := 0 to |run|
        invariant currentCommandNumber == Expected(old(currentCommandNumber), run[..i])
        invariant acknowledged == Acknowledged(old(currentCommandNumber), run[..i])
      {
        assert run[..i + 1][..i] == run[..i];
        var reply, executed := Handle(run[i]);
        if reply.Ok? {
          acknowledged := acknowledged + [run[i].line];
        }
      }
      assert run[..|run|] == run;
    }
  }
}
