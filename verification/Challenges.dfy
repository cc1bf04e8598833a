/** The table of one-time challenges and its sweep of expired entries. */
module Challenges {
  import opened Types

  type Table = map<Id, Challenge>

  const LIFETIME: Time := 5 * MINUTE

  predicate Live(c: Challenge, now: Time) {
    now <= c.expiresAt
  }

  function Sweep(t: Table, now: Time): (t': Table)
    ensures forall id :: id in t' <==> id in t && Live(t[id], now)
    ensures forall id | id in t' :: t'[id] == t[id]
  {
    map id | id in t && Live(t[id], now) :: t[id]
  }

  function Issue(t: Table, id: Id, nonce: string, appId: string, installId: string, now: Time): Table {
    t[id := Challenge(nonce, appId, installId, now + LIFETIME, now)]
  }

  datatype Verdict = Accepted | NotFound | TooOld | Mismatch

  /** What a request naming a challenge is told. */
  function Judge(t: Table, appId: string, installId: string, id: Id, nonce: string, now: Time): Verdict {
    if id !in t then NotFound
    else if !Live(t[id], now) then TooOld
    else if t[id].appId != appId || t[id].installId != installId || t[id].nonce != nonce then Mismatch
    else Accepted
  }

  /** The table after the request: the entry is gone whatever the verdict, and the expired ones with it. */
  function Consume(t: Table, id: Id, now: Time): Table {
    Sweep(t - {id}, now)
  }

  // ----- the sweep cannot be observed in what is accepted -----

  datatype Op =
    | Draw(id: Id, nonce: string, appId: string, installId: string)
    | Use(id: Id, nonce: string, appId: string, installId: string)

  datatype Timed = Timed(op: Op, now: Time)

  /** One operation on the table; `swept` says whether expired entries are dropped along the way. */
  function Operate(t: Table, o: Timed, swept: bool): Table {
    match o.op
    case Draw(id, nonce, appId, installId) =>
      Issue(if swept then Sweep(t, o.now) else t, id, nonce, appId, installId, o.now)
    case Use(id, nonce, appId, installId) =>
      if swept then Consume(t, id, o.now) else t - {id}
  }

  predicate Accepts(t: Table, o: Timed) {
    o.op.Use? && Judge(t, o.op.appId, o.op.installId, o.op.id, o.op.nonce, o.now) == Accepted
  }

  /** The table before operation i of a run. */
  function TableAt(t: Table, ops: seq<Timed>, swept: bool, i: nat): Table
    requires i <= |ops|
  {
    if i == 0 then t else Operate(TableAt(t, ops, swept, i - 1), ops[i - 1], swept)
  }

  ghost predicate Monotone(ops: seq<Timed>) {
    forall i, j | 0 <= i <= j < |ops| :: ops[i].now <= ops[j].now
  }

  /** The swept table holds what the unswept one does, except entries already expired. */
  ghost predicate Agree(swept: Table, kept: Table, now: Time) {
    && (forall id | id in swept :: id in kept && kept[id] == swept[id])
    && (forall id | id in kept && id !in swept :: !Live(kept[id], now))
  }

  lemma {:induction false} SweptAgrees(t: Table, ops: seq<Timed>, i: nat, now: Time)
    requires Monotone(ops) && i <= |ops|
    requires forall j | 0 <= j < i :: ops[j].now <= now
    ensures Agree(TableAt(t, ops, true, i), TableAt(t, ops, false, i), now)
    decreases i
  {
    if i > 0 {
      var o := ops[i - 1];
      SweptAgrees(t, ops, i - 1, o.now);
    }
  }

  /** A server that never sweeps accepts and rejects exactly the same requests, at every point of every run. */
  lemma SweepUnobservable(t: Table, ops: seq<Timed>, i: nat)
    requires Monotone(ops) && i < |ops|
    ensures Accepts(TableAt(t, ops, true, i), ops[i]) <==> Accepts(TableAt(t, ops, false, i), ops[i])
  {
    SweptAgrees(t, ops, i, ops[i].now);
  }

  // ----- what can be observed -----

  /** Some operation before the i-th came after the instant, and swept. */
  ghost predicate SweptSince(ops: seq<Timed>, i: nat, instant: Time)
    requires i <= |ops|
  {
    exists j | 0 <= j < i :: ops[j].now > instant
  }

  /** The swept table is the kept one without the entries that an operation of the run has outlived. */
  lemma {:induction false} SweptExactly(t: Table, ops: seq<Timed>, i: nat, id: Id)
    requires Monotone(ops) && i <= |ops|
    ensures var kept, swept := TableAt(t, ops, false, i), TableAt(t, ops, true, i);
            && (id in swept <==> id in kept && !SweptSince(ops, i, kept[id].expiresAt))
            && (id in swept ==> swept[id] == kept[id])
    decreases i
  {
    if i > 0 {
      SweptExactly(t, ops, i - 1, id);
      var o, kept := ops[i - 1], TableAt(t, ops, false, i);
      if id in kept {
        SweptNext(ops, i, kept[id].expiresAt);
      }
      if o.op.Draw? && o.op.id == id {
        assert !SweptSince(ops, i, o.now + LIFETIME);
      }
    }
  }

  lemma SweptNext(ops: seq<Timed>, i: nat, instant: Time)
    requires 0 < i <= |ops|
    ensures SweptSince(ops, i, instant) <==> SweptSince(ops, i - 1, instant) || ops[i - 1].now > instant
  {
    if SweptSince(ops, i - 1, instant) {
      var j :| 0 <= j < i - 1 && ops[j].now > instant;
    }
  }

  function VerdictAt(t: Table, ops: seq<Timed>, swept: bool, i: nat): Verdict
    requires i < |ops| && ops[i].op.Use?
  {
    var o := ops[i];
    Judge(TableAt(t, ops, swept, i), o.op.appId, o.op.installId, o.op.id, o.op.nonce, o.now)
  }

  /**
   Sweeping changes a verdict if and only if the challenge used is still on the unswept table and some earlier draw
   or use came after its expiry; the verdict is then "not found" instead of "expired", a refusal both ways.
   */
  lemma SweepChangesWordingIff(t: Table, ops: seq<Timed>, i: nat)
    requires Monotone(ops) && i < |ops| && ops[i].op.Use?
    ensures var kept, id := TableAt(t, ops, false, i), ops[i].op.id;
            VerdictAt(t, ops, true, i) != VerdictAt(t, ops, false, i)
            <==> id in kept && SweptSince(ops, i, kept[id].expiresAt)
    ensures VerdictAt(t, ops, true, i) != VerdictAt(t, ops, false, i) ==>
              VerdictAt(t, ops, true, i) == NotFound && VerdictAt(t, ops, false, i) == TooOld
  {
    SweptExactly(t, ops, i, ops[i].op.id);
  }

  /** It happens: drawn, expired, swept by another draw, used. */
  lemma SweepChangesWording(ops: seq<Timed>)
    requires ops == [Timed(Draw(0, "n", "a", "i"), 0),
                     Timed(Draw(1, "n", "a", "i"), 6 * MINUTE),
                     Timed(Use(0, "n", "a", "i"), 6 * MINUTE)]
    ensures Judge(TableAt(map[], ops, true, 2), "a", "i", 0, "n", 6 * MINUTE) == NotFound
    ensures Judge(TableAt(map[], ops, false, 2), "a", "i", 0, "n", 6 * MINUTE) == TooOld
  {
    var first := TableAt(map[], ops, false, 1);
    assert TableAt(map[], ops, true, 0) == map[] == TableAt(map[], ops, false, 0);
    assert Sweep(map[], 0) == map[];
    assert TableAt(map[], ops, true, 1) == first == map[0 := Challenge("n", "a", "i", 5 * MINUTE, 0)];
  }
}
