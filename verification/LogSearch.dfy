/**
 The search for the last matching message of a management topic
 (pkg/mgmt/mgmt_consumer.go): scan the last message, then the last ten, hundred, and so on.
 Stated against the plain property: the greatest matching offset of the log.

 The log is stable and has one partition, as management topics do; the watermarks are
 always those of partition 0.
 */
module LogSearch {

  type Directive = bv32

  const ALL: Directive := 0xffff_ffff

  predicate IsMatch(directive: Directive, match_: Directive) { directive & match_ == match_ }

  /** A directive matches exactly when it has all the bits asked for. */
  lemma MatchHasAll(d: Directive, m: Directive)
    requires IsMatch(d, m)
    ensures d | m == d
  {
  }

  lemma HasAllMatches(d: Directive, m: Directive)
    requires d | m == d
    ensures IsMatch(d, m)
  {
  }

  lemma MatchOne(d: Directive)
    ensures !IsMatch(1, 3) && IsMatch(3, 1) && IsMatch(d, 0) && IsMatch(d, d)
  {
  }

  /** The messages kept, and the offset of the first of them. */
  datatype Log = Log(low: nat, messages: seq<Directive>)

  function High(log: Log): nat { log.low + |log.messages| }

  function At(log: Log, offset: int): Directive
    requires log.low <= offset < High(log)
  {
    log.messages[offset - log.low]
  }

  datatype MatchLoc = PastLastMatch | AtLastMatch

  datatype FindResult = Continue | Found | Stop

  /** An error is a read that times out. */
  datatype Outcome<T> = Error | Ok(value: T)

  function Max(a: int, b: int): int { if a > b then a else b }

  /** `offset` is the greatest matching offset in `from..to`. */
  predicate IsLast(log: Log, m: Directive, from: int, to: int, offset: int)
    requires log.low <= from && to <= High(log)
  {
    && from <= offset < to && IsMatch(At(log, offset), m)
    && forall o :: offset < o < to ==> !IsMatch(At(log, o), m)
  }

  predicate NoneIn(log: Log, m: Directive, from: int, to: int)
    requires log.low <= from && to <= High(log)
  {
    forall o :: from <= o < to ==> !IsMatch(At(log, o), m)
  }

  /** One window: the last `delta` messages. */
  method FindInWindow(log: Log, m: Directive, loc: MatchLoc, delta: nat) returns (r: Outcome<(FindResult, int)>)
    requires delta > 0
    ensures loc.PastLastMatch? ==> r == Ok((Found, High(log)))
    ensures loc.AtLastMatch? && m == ALL ==> r == Ok((Found, Max(0, High(log) - 1)))
    ensures loc.AtLastMatch? && m != ALL && log.messages == [] ==> r.Error?
    ensures loc.AtLastMatch? && m != ALL && log.messages != [] ==>
              && r.Ok?
              && var start, (found, offset) := Max(log.low, High(log) - delta), r.value;
                 if NoneIn(log, m, start, High(log)) then offset == High(log)
                     && found == (if delta < High(log) then Continue else Stop)
                 else found.Found? && IsLast(log, m, start, High(log), offset)
  {
    var low, high := log.low, High(log);
    if loc.PastLastMatch? { return Ok((Found, high)); }
    if m == ALL { return Ok((Found, Max(0, high - 1))); }
    var startOffset := Max(low, high - delta);
    var next := startOffset; // where the consumer reads
    var lastRead := startOffset;
    var matchingOffset := -1;
    while true
      invariant startOffset <= next <= high
      invariant log.messages != [] ==> next < high
      invariant if matchingOffset == -1 then NoneIn(log, m, startOffset, next)
                else IsLast(log, m, startOffset, next, matchingOffset)
      decreases high - next
    {
      if next >= high { return Error; } // nothing to read: timed out
      lastRead := next;
      var directive := At(log, next);
      next := next + 1;
      if IsMatch(directive, m) {
        matchingOffset := lastRead;
      }
      if lastRead >= high - 1 { break; }
    }
    if matchingOffset != -1 {
      return Ok((Found, matchingOffset));
    } else if delta < high {
      return Ok((Continue, high));
    } else {
      return Ok((Stop, high));
    }
  }

  const MAX_DELTA := 100000

  /** The widest window. */
  const WIDEST := 10000

  /** On a log that is not empty: found exactly when one of the last 10000 messages matches,
      and then at the greatest matching offset of the whole log. */
  method FindMostRecentMatching(log: Log, m: Directive, loc: MatchLoc) returns (r: Outcome<(bool, int)>)
    ensures loc.PastLastMatch? ==> r == Ok((true, High(log)))
    ensures loc.AtLastMatch? && m == ALL ==> r == Ok((true, Max(0, High(log) - 1)))
    ensures loc.AtLastMatch? && m != ALL && log.messages == [] ==> r.Error?
    ensures loc.AtLastMatch? && m != ALL && log.messages != [] ==>
              && r.Ok?
              && (r.value.0 <==> exists o :: Max(log.low, High(log) - WIDEST) <= o < High(log)
                                             && IsMatch(At(log, o), m))
              && if r.value.0 then IsLast(log, m, log.low, High(log), r.value.1) else r.value.1 == High(log)
  {
    var delta, found, mro := 1, Continue, 0;
    ghost var tried := 0; // the widest window tried
    while delta < MAX_DELTA
      invariant delta == 1 || delta == 10 || delta == 100 || delta == 1000 || delta == 10000 || delta == 100000
      invariant tried == delta / 10 && found.Continue?
      invariant tried > 0 ==> loc.AtLastMatch? && m != ALL && log.messages != [] && mro == High(log)
                              && NoneIn(log, m, Max(log.low, High(log) - tried), High(log))
      decreases MAX_DELTA - delta
    {
      var w := FindInWindow(log, m, loc, delta);
      if w.Error? { return Error; }
      found, mro := w.value.0, w.value.1;
      if !found.Continue? {
        break;
      } else {
        tried := delta;
        delta := delta * 10;
      }
    }
    r := Ok((found.Found?, mro));
    if loc.AtLastMatch? && m != ALL && log.messages != [] && found.Stop? {
      assert NoneIn(log, m, log.low, High(log));
    }
  }
}
