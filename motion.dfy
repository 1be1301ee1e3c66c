/** Motion Flags: the module-level `dancing` and `shimming` booleans and how each
    call changes them. */
module Motion {

  datatype Flags = Flags(dancing: bool, shimming: bool)

  /** Calls that touch the flags; `Write` stands for every call that only writes
      servos (`writeServos`, `stand`, `spread` and one step of either loop). */
  datatype Call = StopMoving | StartShimmy | StartDance | Rest | Write

  const Idle := Flags(false, false)

  predicate AtMostOne(f: Flags) {
    !(f.dancing && f.shimming)
  }

  /** The flags after one call: `stopMoving` clears both; `shimmy` and `dance` call
      `stopMoving` and then set their own flag; `rest` calls `stopMoving`. */
  function Apply(f: Flags, c: Call): (r: Flags)
    ensures c != Write ==> AtMostOne(r)
    ensures c == Write ==> r == f
    ensures r.shimming ==> c == StartShimmy || c == Write
    ensures r.dancing ==> c == StartDance || c == Write
  {
    match c
    case StopMoving => Idle
    case StartShimmy => Idle.(shimming := true)
    case StartDance => Idle.(dancing := true)
    case Rest => Idle
    case Write => f
  }

  /** The flags after a sequence of calls, first call first. */
  function Run(f: Flags, calls: seq<Call>): Flags
    decreases |calls|
  {
    if calls == [] then f else Run(Apply(f, calls[0]), calls[1..])
  }

  /** What each call leaves behind, whatever the flags were before. */
  lemma ApplyEffects(f: Flags)
    ensures Apply(f, StopMoving) == Flags(false, false)
    ensures Apply(f, Rest) == Flags(false, false)
    ensures Apply(f, StartShimmy) == Flags(false, true)
    ensures Apply(f, StartDance) == Flags(true, false)
    ensures Apply(f, Write) == f
  {
  }

  /** Running one more call is applying it to the flags the earlier calls left. */
  lemma {:induction false} RunSnoc(f: Flags, calls: seq<Call>, c: Call)
    ensures Run(f, calls + [c]) == Apply(Run(f, calls), c)
    decreases |calls|
  {
    if calls == [] {
      assert [] + [c] == [c];
      assert [c][1..] == [];
    } else {
      assert (calls + [c])[0] == calls[0];
      assert (calls + [c])[1..] == calls[1..] + [c];
      RunSnoc(Apply(f, calls[0]), calls[1..], c);
    }
  }

  /** No sequence of calls leaves both flags true. */
  lemma {:induction false} RunKeepsAtMostOne(f: Flags, calls: seq<Call>)
    requires AtMostOne(f)
    ensures AtMostOne(Run(f, calls))
    decreases |calls|
  {
    if calls != [] {
      RunKeepsAtMostOne(Apply(f, calls[0]), calls[1..]);
    }
  }

  /** Calls that only write servos leave the flags as they were. */
  lemma {:induction false} WritesKeepFlags(f: Flags, calls: seq<Call>)
    requires forall i :: 0 <= i < |calls| ==> calls[i] == Write
    ensures Run(f, calls) == f
    decreases |calls|
  {
    if calls != [] {
      WritesKeepFlags(f, calls[1..]);
    }
  }

  /** Running two sequences one after the other is running their concatenation. */
  lemma {:induction false} RunAppend(f: Flags, a: seq<Call>, b: seq<Call>)
    ensures Run(f, a + b) == Run(Run(f, a), b)
    decreases |a|
  {
    if a == [] {
      assert a + b == b;
    } else {
      assert (a + b)[0] == a[0];
      assert (a + b)[1..] == a[1..] + b;
      RunAppend(Apply(f, a[0]), a[1..], b);
    }
  }

  /** After `shimmy()` followed only by writes, just `shimming` is true; after
      `dance()` followed only by writes, just `dancing` is; after `stopMoving()` or
      `rest()` followed only by writes, neither is, whatever came before. */
  lemma LastControlCallDecides(f: Flags, before: seq<Call>, c: Call, writes: seq<Call>)
    requires c != Write
    requires forall i :: 0 <= i < |writes| ==> writes[i] == Write
    ensures c == StartShimmy ==> Run(f, before + [c] + writes) == Flags(false, true)
    ensures c == StartDance ==> Run(f, before + [c] + writes) == Flags(true, false)
    ensures c == StopMoving || c == Rest ==> Run(f, before + [c] + writes) == Flags(false, false)
  {
    RunAppend(f, before + [c], writes);
    RunSnoc(f, before, c);
    WritesKeepFlags(Run(f, before + [c]), writes);
  }
}
