/** The execution budget (crates/fabric-backends/src/db.rs, `connect`, `block_on_db`;
    crates/fabric-backends/src/mongo.rs, `connect_resource`, `dispatch`): one deadline is anchored when
    a backend is connected and every later wait gets what is left of it. */
module Deadline {
  import opened Wire

  /** The anchored deadline; should the clock type overflow, "now" is taken instead. */
  function Anchor(now: nat, budget: nat, clockMax: nat): nat {
    if now + budget <= clockMax then now + budget else now
  }

  function Left(deadline: nat, now: nat): nat {
    if now >= deadline then 0 else deadline - now
  }

  /** One bounded wait: begun at `start`, on an operation that would take `need` (`None` = forever). */
  datatype Wait = Wait(start: nat, need: Option<nat>)

  /** How long the wait blocks, and whether it is cut off. */
  function Blocked(deadline: nat, w: Wait): nat {
    if w.need.Some? && w.need.value <= Left(deadline, w.start) then w.need.value else Left(deadline, w.start)
  }

  predicate CutOff(deadline: nat, w: Wait) {
    w.need.None? || w.need.value > Left(deadline, w.start)
  }

  /** Waits of one backend are sequential under a monotone clock. */
  ghost predicate Sequential(deadline: nat, from: nat, waits: seq<Wait>)
    decreases |waits|
  {
    waits == [] ||
    (from <= waits[0].start && Sequential(deadline, waits[0].start + Blocked(deadline, waits[0]), waits[1..]))
  }

  function TotalBlocked(deadline: nat, waits: seq<Wait>): nat {
    if waits == [] then 0 else Blocked(deadline, waits[0]) + TotalBlocked(deadline, waits[1..])
  }

  lemma {:induction false} WaitsFitInWhatIsLeft(deadline: nat, from: nat, waits: seq<Wait>)
    requires Sequential(deadline, from, waits)
    ensures TotalBlocked(deadline, waits) <= Left(deadline, from)
    decreases |waits|
  {
    if waits != [] {
      WaitsFitInWhatIsLeft(deadline, waits[0].start + Blocked(deadline, waits[0]), waits[1..]);
    }
  }

  /** For any number of operations on one backend, at any times and of any length - even ones that
      would never return - the total time spent inside the bounded waits is at most the budget. */
  lemma TotalWaitIsWithinBudget(now: nat, budget: nat, clockMax: nat, waits: seq<Wait>)
    requires Sequential(Anchor(now, budget, clockMax), now, waits)
    ensures TotalBlocked(Anchor(now, budget, clockMax), waits) <= budget
  {
    WaitsFitInWhatIsLeft(Anchor(now, budget, clockMax), now, waits);
  }

  /** Once a wait has been cut off, the deadline has come: every later wait ends at once, and succeeds
      only if it needs no time at all. */
  lemma {:induction false} NothingWaitsAfterACutOff(deadline: nat, from: nat, waits: seq<Wait>, i: nat, j: nat)
    requires Sequential(deadline, from, waits)
    requires i < j < |waits| && CutOff(deadline, waits[i])
    ensures Blocked(deadline, waits[j]) == 0
    ensures CutOff(deadline, waits[j]) <==> waits[j].need != Some(0)
    decreases i
  {
    if i > 0 {
      NothingWaitsAfterACutOff(deadline, waits[0].start + Blocked(deadline, waits[0]), waits[1..], i - 1, j - 1);
    } else {
      LaterStarts(deadline, waits[0].start + Blocked(deadline, waits[0]), waits[1..], j - 1);
    }
  }

  lemma {:induction false} LaterStarts(deadline: nat, from: nat, waits: seq<Wait>, j: nat)
    requires Sequential(deadline, from, waits) && j < |waits|
    ensures from <= waits[j].start
    decreases j
  {
    if j > 0 {
      LaterStarts(deadline, waits[0].start + Blocked(deadline, waits[0]), waits[1..], j - 1);
    }
  }

  /** A wait is held for what it needs or for what the budget leaves, whichever is less, and cut off exactly
      when the budget leaves less; a clock too small for the deadline leaves nothing. */
  lemma WaitsAreBoundedByTheRest(now: nat, budget: nat, clockMax: nat, w: Wait)
    requires now <= w.start
    ensures var rest := if now + budget > clockMax || now + budget <= w.start then 0 else now + budget - w.start;
      && (w.need.None? ==> Blocked(Anchor(now, budget, clockMax), w) == rest && CutOff(Anchor(now, budget, clockMax), w))
      && (w.need.Some? ==>
            && Blocked(Anchor(now, budget, clockMax), w) == (if w.need.value <= rest then w.need.value else rest)
            && (CutOff(Anchor(now, budget, clockMax), w) <==> w.need.value > rest))
  {
  }

  /** The budget is not an overestimate: an operation that never returns is held for all of it. */
  lemma BudgetIsTight(now: nat, budget: nat, clockMax: nat)
    requires now + budget <= clockMax
    ensures Sequential(Anchor(now, budget, clockMax), now, [Wait(now, None)])
    ensures TotalBlocked(Anchor(now, budget, clockMax), [Wait(now, None)]) == budget
  {
    var waits := [Wait(now, None)];
    assert waits[1..] == [];
  }
}
