/** The monotonic generator of `ulid.ts` (ULID Specification, section "Monotonicity"): one chain of times and random
    numbers, over every sequence of calls. */
module UlidMonotonic {
  import opened UlidCodec

  // ----- incrementRandom -----

  datatype Option<+T> = None | Some(value: T)

  /** Adding one to a big-endian byte array, unless it is all ones. */
  function Increment(bytes: seq<byte>): Option<seq<byte>> {
    if bytes == [] then None
    else
      var front, last := bytes[..|bytes| - 1], bytes[|bytes| - 1];
      if last < 0xFF then Some(front + [last + 1])
      else match Increment(front)
        case None => None
        case Some(up) => Some(up + [0])
  }

  lemma {:induction false} IncrementAddsOne(bytes: seq<byte>)
    ensures match Increment(bytes)
      case Some(up) => |up| == |bytes| && Number(up) == Number(bytes) + 1
      case None => Number(bytes) == Pow(0x100, |bytes|) - 1
  {
    if bytes != [] {
      var front := bytes[..|bytes| - 1];
      IncrementAddsOne(front);
      if Increment(bytes).Some? {
        var up := Increment(bytes).value;
        if bytes[|bytes| - 1] == 0xFF { assert up[..|bytes| - 1] == Increment(front).value; }
        else { assert up[..|bytes| - 1] == front; }
      }
    }
  }

  /** Overflow is exactly every byte being 0xFF. */
  lemma {:induction false} OverflowIsAllOnes(bytes: seq<byte>)
    ensures Increment(bytes).None? <==> forall i :: 0 <= i < |bytes| ==> bytes[i] == 0xFF
  {
    if bytes != [] {
      var front := bytes[..|bytes| - 1];
      OverflowIsAllOnes(front);
      assert forall i :: 0 <= i < |front| ==> front[i] == bytes[i];
    }
  }

  /** The suffix already carried through. */
  function Carried(head: Option<seq<byte>>, tail: seq<byte>): Option<seq<byte>> {
    match head
    case None => None
    case Some(up) => Some(up + tail)
  }

  method IncrementRandom(randomBytes: array<byte>) returns (next: array?<byte>)
    ensures next != null ==> fresh(next) && Increment(randomBytes[..]) == Some(next[..])
    ensures next == null ==> Increment(randomBytes[..]) == None
  {
    var bytes := new byte[randomBytes.Length](k requires 0 <= k < randomBytes.Length reads randomBytes => randomBytes[k]);
    hide Increment, Carrying;
    assert bytes[..] == randomBytes[..];
    var i := bytes.Length - 1;
    Whole(bytes[..]);
    while i >= 0
      invariant -1 <= i < bytes.Length
      invariant Increment(randomBytes[..]) == Carrying(bytes[..], i + 1)
    {
      ghost var was := bytes[..];
      var current := bytes[i];
      if current == 0xFF {
        bytes[i] := 0;
        assert bytes[..] == was[i := 0];
        CarriesOn(was, i);
      } else {
        bytes[i] := current + 1;
        assert bytes[..] == was[i := current + 1];
        CarryStops(was, i);
        return bytes;
      }
      i := i - 1;
    }
    NothingLeft(bytes[..]);
    next := null;
  }

  lemma NothingLeft(bytes: seq<byte>)
    ensures Carrying(bytes, 0) == None
  {
  }

  /** The increment with its carry still to go into the first `n` bytes. */
  function Carrying(bytes: seq<byte>, n: nat): Option<seq<byte>>
    requires n <= |bytes|
  {
    Carried(Increment(bytes[..n]), bytes[n..])
  }

  lemma Whole(bytes: seq<byte>)
    ensures Carrying(bytes, |bytes|) == Increment(bytes)
  {
    assert bytes[..|bytes|] == bytes && bytes[|bytes|..] == [];
    if Increment(bytes).Some? { assert Increment(bytes).value + [] == Increment(bytes).value; }
  }

  lemma CarriesOn(bytes: seq<byte>, i: nat)
    requires i < |bytes| && bytes[i] == 0xFF
    ensures Carrying(bytes[i := 0], i) == Carrying(bytes, i + 1)
  {
    var now := bytes[i := 0];
    assert bytes[..i + 1][..i] == bytes[..i] == now[..i];
    assert now[i..] == [0] + bytes[i + 1..];
    var up := Increment(bytes[..i]);
    if up.Some? { assert (up.value + [0]) + bytes[i + 1..] == up.value + ([0] + bytes[i + 1..]); }
  }

  lemma CarryStops(bytes: seq<byte>, i: nat)
    requires i < |bytes| && bytes[i] < 0xFF
    ensures Carrying(bytes, i + 1) == Some(bytes[i := bytes[i] + 1])
  {
    assert bytes[..i + 1][..i] == bytes[..i];
    assert bytes[i := bytes[i] + 1] == bytes[..i] + [bytes[i] + 1] + bytes[i + 1..];
  }

  // ----- the chain -----

  /** The last time emitted at, and the random bytes used, once there are any. */
  datatype Chain = Chain(lastTime: nat, lastRandom: Option<seq<byte>>)
  datatype Result = Emitted(id: string) | InvalidTimestamp | Overflow

  /** A call's timestamp, and the bytes the random source would give it. */
  datatype Call = Call(time: JsNumber, random: seq<byte>)

  const Start := Chain(0, None)

  ghost predicate Sane(c: Chain) {
    c.lastTime <= MAX_TIME && (c.lastRandom.Some? ==> |c.lastRandom.value| == 10)
  }

  function Next(c: Chain, call: Call): (Chain, Result) {
    if !IsTime(call.time) then (c, InvalidTimestamp)
    else if c.lastRandom.Some? && call.time.value <= c.lastTime then
      match Increment(c.lastRandom.value)
      case None => (c, Overflow)
      case Some(up) => (c.(lastRandom := Some(up)), Emitted(Text(c.lastTime, up)))
    else
      (Chain(call.time.value, Some(call.random)), Emitted(Text(call.time.value, call.random)))
  }

  function Text(time: nat, random: seq<byte>): string {
    Ulid(time, Number(random))
  }

  function After(c: Chain, calls: seq<Call>): Chain {
    if calls == [] then c else Next(After(c, calls[..|calls| - 1]), calls[|calls| - 1]).0
  }

  /** What call `i` of the sequence returned. */
  function Returned(c: Chain, calls: seq<Call>, i: nat): Result
    requires i < |calls|
  {
    Next(After(c, calls[..i]), calls[i]).1
  }

  ghost predicate WellSupplied(calls: seq<Call>) {
    forall i :: 0 <= i < |calls| ==> |calls[i].random| == 10
  }

  /** The latest acceptable timestamp among the calls. */
  function Latest(calls: seq<Call>): nat {
    if calls == [] then 0
    else
      var before, time := Latest(calls[..|calls| - 1]), calls[|calls| - 1].time;
      if IsTime(time) && time.value > before then time.value else before
  }

  ghost predicate Accepted(calls: seq<Call>) {
    exists i :: 0 <= i < |calls| && IsTime(calls[i].time)
  }

  lemma {:induction false} ChainTracksCalls(calls: seq<Call>)
    requires WellSupplied(calls)
    ensures var c := After(Start, calls);
      Sane(c) && c.lastTime == Latest(calls) && (c.lastRandom.Some? <==> Accepted(calls))
  {
    if calls != [] {
      var before := calls[..|calls| - 1];
      ChainTracksCalls(before);
      assert forall i :: 0 <= i < |before| ==> before[i] == calls[i];
      assert Accepted(calls) <==> Accepted(before) || IsTime(calls[|calls| - 1].time);
      if After(Start, before).lastRandom.Some? { IncrementAddsOne(After(Start, before).lastRandom.value); }
      NoneYet(before);
    }
  }

  lemma {:induction false} NoneYet(calls: seq<Call>)
    ensures !Accepted(calls) ==> Latest(calls) == 0
  {
    if calls != [] {
      var before := calls[..|calls| - 1];
      NoneYet(before);
      assert forall i :: 0 <= i < |before| ==> before[i] == calls[i];
      assert !Accepted(calls) ==> !IsTime(calls[|calls| - 1].time);
    }
  }

  /** The chain never steps back. */
  ghost predicate NotAfter(a: Chain, b: Chain) {
    a.lastRandom.Some? ==>
      b.lastRandom.Some? &&
      (a.lastTime < b.lastTime || (a.lastTime == b.lastTime && Number(a.lastRandom.value) <= Number(b.lastRandom.value)))
  }

  /** A call that throws changes nothing; a call that emits moves the chain to the time and number it emitted,
      strictly past where it was. */
  lemma NextMovesUp(c: Chain, call: Call)
    requires Sane(c) && |call.random| == 10
    ensures var (after, result) := Next(c, call);
      && Sane(after) && NotAfter(c, after)
      && (!result.Emitted? ==> after == c)
      && (result.Emitted? ==> after.lastRandom.Some? && result.id == Text(after.lastTime, after.lastRandom.value))
      && (result.Emitted? && c.lastRandom.Some? ==> Less(Text(c.lastTime, c.lastRandom.value), result.id))
  {
    hide Less, Increment;
    if c.lastRandom.Some? {
      IncrementAddsOne(c.lastRandom.value);
      var after := Next(c, call).0;
      NumberFits(c.lastRandom.value);
      NumberFits(after.lastRandom.value);
      OrderIsTimeThenRandom(c.lastTime, Number(c.lastRandom.value), after.lastTime, Number(after.lastRandom.value));
    }
  }

  lemma NumberFits(bytes: seq<byte>)
    requires |bytes| == 10
    ensures Number(bytes) < Pow(32, RANDOM_LEN)
  {
    NumberBound(bytes);
    PowsOf32();
  }

  lemma {:induction false} ChainRises(calls: seq<Call>, i: nat, j: nat)
    requires WellSupplied(calls) && i <= j <= |calls|
    ensures Sane(After(Start, calls[..i])) && Sane(After(Start, calls[..j]))
    ensures NotAfter(After(Start, calls[..i]), After(Start, calls[..j]))
    decreases j
  {
    ChainTracksCalls(calls[..i]);
    ChainTracksCalls(calls[..j]);
    if i < j {
      ChainRises(calls, i, j - 1);
      assert calls[..j][..j - 1] == calls[..j - 1];
      NextMovesUp(After(Start, calls[..j - 1]), calls[j - 1]);
    }
  }

  // ----- results -----

  /** Whatever timestamps are passed, valid, invalid or going back, and whichever calls throw, the strings one
      generator emits are strictly increasing. */
  lemma EmittedStringsIncrease(calls: seq<Call>, i: nat, j: nat)
    requires WellSupplied(calls) && i < j < |calls|
    requires Returned(Start, calls, i).Emitted? && Returned(Start, calls, j).Emitted?
    ensures Less(Returned(Start, calls, i).id, Returned(Start, calls, j).id)
  {
    hide Less, Next, Number, Ulid;
    assert calls[..i + 1][..i] == calls[..i] && calls[..j + 1][..j] == calls[..j];
    ChainRises(calls, 0, i);
    ChainRises(calls, i + 1, j);
    ChainRises(calls, i + 1, j + 1);
    NextMovesUp(After(Start, calls[..i]), calls[i]);
    NextMovesUp(After(Start, calls[..j]), calls[j]);
    var a, b, c := After(Start, calls[..i + 1]), After(Start, calls[..j]), After(Start, calls[..j + 1]);
    LessChain(a, b, c);
  }

  lemma LessChain(a: Chain, b: Chain, c: Chain)
    requires Sane(a) && Sane(b) && Sane(c) && a.lastRandom.Some? && b.lastRandom.Some? && c.lastRandom.Some?
    requires NotAfter(a, b) && Less(Text(b.lastTime, b.lastRandom.value), Text(c.lastTime, c.lastRandom.value))
    ensures Less(Text(a.lastTime, a.lastRandom.value), Text(c.lastTime, c.lastRandom.value))
  {
    hide Less, Number, Ulid;
    NumberFits(a.lastRandom.value);
    NumberFits(b.lastRandom.value);
    NumberFits(c.lastRandom.value);
    OrderIsTimeThenRandom(b.lastTime, Number(b.lastRandom.value), c.lastTime, Number(c.lastRandom.value));
    OrderIsTimeThenRandom(a.lastTime, Number(a.lastRandom.value), c.lastTime, Number(c.lastRandom.value));
  }

  /** Each string decodes to the latest acceptable timestamp passed so far. */
  lemma EmbedsTheRunningMaximum(calls: seq<Call>, i: nat)
    requires WellSupplied(calls) && i < |calls| && Returned(Start, calls, i).Emitted?
    ensures Timestamp(Returned(Start, calls, i).id) == Time(Latest(calls[..i + 1]))
  {
    hide Next, Timestamp, Number;
    assert calls[..i + 1][..i] == calls[..i];
    ChainTracksCalls(calls[..i]);
    ChainTracksCalls(calls[..i + 1]);
    NextMovesUp(After(Start, calls[..i]), calls[i]);
    var c := After(Start, calls[..i + 1]);
    RandomRoundTrip(c.lastRandom.value);
    DecodeUndoesEncode(c.lastTime, Digits(Number(c.lastRandom.value), RANDOM_LEN));
  }

  /** A call throws exactly when its timestamp is no time, or it cannot move the clock past the last emitted time and
      the random bytes are exhausted; and then the generator carries on as if it had not been called. */
  lemma ThrowsExactlyWhen(c: Chain, call: Call)
    requires Sane(c)
    ensures Next(c, call).1.InvalidTimestamp? <==> !IsTime(call.time)
    ensures Next(c, call).1.Overflow? <==>
      IsTime(call.time) && c.lastRandom.Some? && call.time.value <= c.lastTime && forall i :: 0 <= i < 10 ==> c.lastRandom.value[i] == 0xFF
    ensures !Next(c, call).1.Emitted? ==> forall calls :: After(Next(c, call).0, calls) == After(c, calls)
  {
    if c.lastRandom.Some? { OverflowIsAllOnes(c.lastRandom.value); }
  }

  /** Of the calls before `i`, `j` is the last one that emitted. */
  ghost predicate LastToEmit(calls: seq<Call>, i: nat, j: nat)
    requires i <= |calls|
  {
    && j < i && Returned(Start, calls, j).Emitted?
    && forall k :: j < k < i ==> !Returned(Start, calls, k).Emitted?
  }

  /** What the chain holds is what was emitted last. */
  lemma {:induction false} ChainIsLastEmitted(calls: seq<Call>, i: nat) returns (j: nat)
    requires WellSupplied(calls) && i <= |calls| && Accepted(calls[..i])
    ensures var c := After(Start, calls[..i]);
      && LastToEmit(calls, i, j) && c.lastRandom.Some?
      && Returned(Start, calls, j) == Emitted(Ulid(c.lastTime, Number(c.lastRandom.value)))
    decreases i
  {
    hide Next, Number, Ulid;
    assert calls[..i][..i - 1] == calls[..i - 1];
    ChainTracksCalls(calls[..i]);
    ChainTracksCalls(calls[..i - 1]);
    NextMovesUp(After(Start, calls[..i - 1]), calls[i - 1]);
    if Returned(Start, calls, i - 1).Emitted? {
      j := i - 1;
    } else {
      j := ChainIsLastEmitted(calls, i - 1);
    }
  }

  predicate AddsOne(last: Result, result: Result, time: nat, number: nat) {
    && last == Emitted(Ulid(time, number))
    && result == if number == 1208925819614629174706175 then Overflow else Emitted(Ulid(time, number + 1))
  }

  /** What a generator returns, call after call. A timestamp that is no whole number of 48 bits is refused. One that no call had
      before is emitted with the random bytes of its own call; one at or below the latest is emitted at that latest time, with
      the number emitted last and 1, unless that number was the greatest of 80 bits. */
  lemma EmitsExactly(calls: seq<Call>, i: nat)
    requires WellSupplied(calls) && i < |calls|
    ensures var Call(time, random) := calls[i]; var result := Returned(Start, calls, i); var latest := Latest(calls[..i]);
      if !(time.Integer? && 0 <= time.value <= 281474976710655) then result == InvalidTimestamp
      else if !Accepted(calls[..i]) || time.value > latest then result == Emitted(Ulid(time.value, Number(random)))
      else exists j: nat, number: nat :: LastToEmit(calls, i, j) && AddsOne(Returned(Start, calls, j), result, latest, number)
  {
    hide Number, Ulid, Increment;
    var c := After(Start, calls[..i]);
    ChainTracksCalls(calls[..i]);
    if Accepted(calls[..i]) {
      var j := ChainIsLastEmitted(calls, i);
      IncrementAddsOne(c.lastRandom.value);
      PowsOf32();
      NumberBound(c.lastRandom.value);
      if Increment(c.lastRandom.value).Some? { NumberBound(Increment(c.lastRandom.value).value); }
      if IsTime(calls[i].time) && calls[i].time.value <= c.lastTime {
        assert AddsOne(Returned(Start, calls, j), Returned(Start, calls, i), c.lastTime, Number(c.lastRandom.value));
      }
    }
  }

  // ----- the generator object -----

  class Generator {
    var lastTime: nat
    var lastRandom: array?<byte>

    ghost predicate Valid()
      reads this, lastRandom
    {
      lastTime <= MAX_TIME && (lastRandom != null ==> lastRandom.Length == 10)
    }

    ghost function Abs(): Chain
      reads this, lastRandom
    {
      Chain(lastTime, if lastRandom == null then None else Some(lastRandom[..]))
    }

    constructor ()
      ensures Valid() && Abs() == Start
    {
      lastTime, lastRandom := 0, null;
    }

    /** `nextMonotonic`; `random` is what the random source would fill. Earlier byte arrays are never written to. */
    method NextMonotonic(time: JsNumber, random: array<byte>) returns (result: Result)
      requires Valid() && random.Length == 10
      modifies this
      ensures Valid() && (Abs(), result) == Next(old(Abs()), Call(time, random[..]))
    {
      hide Digits, Number, Increment;
      var encoded := EncodeTime(time);
      if encoded.InvalidTime? { return InvalidTimestamp; }
      if lastRandom != null && time.value <= lastTime {
        var bytes := IncrementRandom(lastRandom);
        IncrementAddsOne(lastRandom[..]);
        if bytes == null { return Overflow; }
        lastRandom := bytes;
        var head := EncodeTime(Integer(lastTime));
        var tail := EncodeRandom(bytes);
        return Emitted(head.text + tail);
      }
      lastTime := time.value;
      lastRandom := random;
      var tail := EncodeRandom(random);
      result := Emitted(encoded.text + tail);
    }
  }
}
