/** The week-6 debugging lab: a Car whose speed, odometer and elapsed time are integers,
    and the console loop that drives it one command at a time. The loop's `input()` calls
    are a sequence of lines; what it prints is a Reply. */
module CarLab {
  import opened Outcomes
  import opened PyText

  /** The attributes of a Car at one moment. */
  datatype CarState = CarState(speed: int, odometer: int, time: int)

  /** `step()`: the car drives one time unit at its current speed. */
  function Stepped(s: CarState): (r: CarState)
    ensures r.speed == s.speed && r.odometer == s.odometer + s.speed && r.time == s.time + 1
  {
    s.(odometer := s.odometer + s.speed, time := s.time + 1)
  }

  /** `average_speed()`: `odometer / time`, or None where Python raises ZeroDivisionError. */
  function Average(s: CarState): (r: Option<real>)
    ensures r.Some? <==> s.time != 0
    ensures r.Some? ==> r.value * s.time as real == s.odometer as real
  {
    if s.time == 0 then None else Some(s.odometer as real / s.time as real)
  }

  /** The four commands the loop knows. */
  datatype Command = Accelerate | Brake | ShowOdometer | ShowSpeed

  /** The one-letter name of each command. */
  function Letter(c: Command): char {
    match c
    case Accelerate => 'A'
    case Brake => 'B'
    case ShowOdometer => 'O'
    case ShowSpeed => 'S'
  }

  /** The loop's reading of a line: upper-cased, it must be one of the letters A, B, O, S. */
  function ParseCommand(line: string): (r: Option<Command>)
    ensures r.Some? ==> |line| == 1 && Upper(line) == [Letter(r.value)]
  {
    var action := Upper(line);
    if |action| != 1 then None
    else if action[0] == 'A' then Some(Accelerate)
    else if action[0] == 'B' then Some(Brake)
    else if action[0] == 'O' then Some(ShowOdometer)
    else if action[0] == 'S' then Some(ShowSpeed)
    else None
  }

  /** A command's letter is read back as that command, in either case; nothing longer or
      shorter than one character is a command. */
  lemma ParseLetters(c: Command)
    ensures ParseCommand([Letter(c)]) == Some(c)
    ensures ParseCommand([LowerChar(Letter(c))]) == Some(c)
    ensures forall line :: |line| != 1 ==> ParseCommand(line) == None
  {
  }

  /** What one pass of the loop prints. */
  datatype Reply =
    | Unknown
    | Accelerating
    | Braking
    | Odometer(kilometers: int)
    | Speed(kph: real)
    | Crash(error: string)

  /** One pass of the loop: an unknown line changes nothing; a command acts and is followed
      by one `step()`; asking for the average speed at time 0 raises ZeroDivisionError,
      which nothing catches, so the loop ends there without stepping. */
  function Respond(s: CarState, line: string): (CarState, Reply)
  {
    match ParseCommand(line)
    case None => (s, Unknown)
    case Some(Accelerate) => (Stepped(s.(speed := s.speed + 5)), Accelerating)
    case Some(Brake) => (Stepped(s.(speed := s.speed - 5)), Braking)
    case Some(ShowOdometer) => (Stepped(s), Odometer(s.odometer))
    case Some(ShowSpeed) =>
      match Average(s)
      case None => (s, Crash("division by zero"))
      case Some(v) => (Stepped(s), Speed(v))
  }

  /** The loop's effect on one line: time moves on by one exactly for a command that does
      not crash, the speed only for A and B, and only a crash comes at time 0. */
  lemma RespondSteps(s: CarState, line: string)
    ensures var (s', reply) := Respond(s, line);
      && (s'.time == s.time + 1 <==> ParseCommand(line).Some? && !reply.Crash?)
      && (s'.time != s.time + 1 ==> s' == s)
      && (reply.Crash? <==> ParseCommand(line) == Some(ShowSpeed) && s.time == 0)
      && s'.speed == s.speed + (if ParseCommand(line) == Some(Accelerate) then 5
                               else if ParseCommand(line) == Some(Brake) then -5 else 0)
  {
  }

  /** The loop over several lines: the car and everything printed, up to the first crash. */
  datatype Trace = Trace(car: CarState, replies: seq<Reply>)

  function Run(s: CarState, lines: seq<string>): (t: Trace)
    decreases |lines|
  {
    if lines == [] then Trace(s, [])
    else
      var (s', reply) := Respond(s, lines[0]);
      if reply.Crash? then Trace(s', [reply])
      else
        var rest := Run(s', lines[1..]);
        Trace(rest.car, [reply] + rest.replies)
  }

  /** How many of the lines are commands, and how many are A and B. */
  function Commands(lines: seq<string>): (n: nat)
    ensures n <= |lines|
    ensures n == |lines| <==> forall i :: 0 <= i < |lines| ==> ParseCommand(lines[i]).Some?
    ensures n == 0 <==> forall i :: 0 <= i < |lines| ==> ParseCommand(lines[i]).None?
  {
    if lines == [] then 0 else (if ParseCommand(lines[0]).Some? then 1 else 0) + Commands(lines[1..])
  }

  function NetAcceleration(lines: seq<string>): int {
    if lines == [] then 0
    else
      var c := ParseCommand(lines[0]);
      (if c == Some(Accelerate) then 5 else if c == Some(Brake) then -5 else 0) + NetAcceleration(lines[1..])
  }

  /** Once the car has moved at least one step the loop never crashes: it prints one reply
      per line, its clock counts the commands, and its speed is 5 up per A and 5 down per B,
      with no lower bound. */
  lemma {:induction false} RunCounts(s: CarState, lines: seq<string>)
    requires s.time > 0
    ensures var t := Run(s, lines);
      && |t.replies| == |lines| && (forall i :: 0 <= i < |t.replies| ==> !t.replies[i].Crash?)
      && t.car.time == s.time + Commands(lines)
      && t.car.speed == s.speed + NetAcceleration(lines)
    decreases |lines|
  {
    if lines != [] {
      RespondSteps(s, lines[0]);
      var (s', reply) := Respond(s, lines[0]);
      RunCounts(s', lines[1..]);
    }
  }

  /** Asking for the average speed before anything else crashes the program at once. */
  lemma SpeedFirstCrashes(lines: seq<string>)
    requires lines != [] && ParseCommand(lines[0]) == Some(ShowSpeed)
    ensures Run(CarState(0, 0, 0), lines) == Trace(CarState(0, 0, 0), [Crash("division by zero")])
  {
  }

  class Car {
    var speed: int
    var odometer: int
    var time: int

    function Value(): CarState
      reads this
    {
      CarState(speed, odometer, time)
    }

    /** `Car(speed=0)`: standing still, nothing driven yet. */
    constructor (speed: int)
      ensures Value() == CarState(speed, 0, 0)
    {
      this.speed := speed;
      odometer := 0;
      time := 0;
    }

    /** `accelerate()`. */
    method Accelerate()
      modifies this
      ensures Value() == old(Value()).(speed := old(speed) + 5)
    {
      speed := speed + 5;
    }

    /** `brake()`: nothing stops the speed going below zero. */
    method Brake()
      modifies this
      ensures Value() == old(Value()).(speed := old(speed) - 5)
    {
      speed := speed - 5;
    }

    /** `step()`. */
    method Step()
      modifies this
      ensures Value() == Stepped(old(Value()))
    {
      odometer := odometer + speed;
      time := time + 1;
    }

    /** `average_speed()`. */
    function AverageSpeed(): (r: Option<real>)
      reads this
      ensures r == Average(Value())
    {
      if time == 0 then None else Some(odometer as real / time as real)
    }

    /** One pass of the `while True` loop on one input line. */
    method Handle(line: string) returns (reply: Reply)
      modifies this
      ensures (Value(), reply) == Respond(old(Value()), line)
    {
      var action := Upper(line);
      if |action| != 1 || action[0] !in "ABOS" {
        return Unknown;
      }
      if action[0] == 'A' {
        Accelerate();
        reply := Accelerating;
      } else if action[0] == 'B' {
        Brake();
        reply := Braking;
      } else if action[0] == 'O' {
        reply := Odometer(odometer);
      } else {
        var average := AverageSpeed();
        if average.None? {
          return Crash("division by zero");
        }
        reply := Speed(average.value);
      }
      Step();
    }

    /** The loop over all the lines typed, ending early at a crash. */
    method Drive(lines: seq<string>) returns (replies: seq<Reply>)
      modifies this
      ensures Trace(Value(), replies) == Run(old(Value()), lines)
    {
      replies := [];
      var i := 0;
      while i < |lines|
        invariant 0 <= i <= |lines|
        invariant var rest := Run(Value(), lines[i..]);
          Trace(rest.car, replies + rest.replies) == Run(old(Value()), lines)
      {
        assert lines[i..][1..] == lines[i + 1..];
        var reply := Handle(lines[i]);
        replies := replies + [reply];
        if reply.Crash? {
          return;
        }
        i := i + 1;
      }
    }
  }
}
