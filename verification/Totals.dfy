/**
  The ledger of the whole system: total debits equal total credits equal what the captured payments add
  up to, in every reachable state.
*/
module Totals {
  import opened Tables
  import opened System
  import opened SagaFacts
  import Guarantees
  import P = Payments

  // The entries of a direction, over the bookings in `keys` only.
  ghost function SumIn(ledger: seq<Row<P.Entry>>, keys: set<Uuid>, d: P.Direction): int {
    if ledger == [] then 0
    else
      var r := ledger[|ledger| - 1];
      SumIn(ledger[..|ledger| - 1], keys, d) + if r.key in keys && r.value.direction == d then r.value.amountCents
        else 0
  }

  ghost function SumAll(ledger: seq<Row<P.Entry>>, d: P.Direction): int {
    if ledger == [] then 0
    else
      var r := ledger[|ledger| - 1];
      SumAll(ledger[..|ledger| - 1], d) + if r.value.direction == d then r.value.amountCents else 0
  }

  ghost function Pick(keys: set<Uuid>): Uuid
    requires keys != {}
  {
    var k :| k in keys; k
  }

  ghost function TotalCaptured(payments: map<Uuid, P.Payment>, keys: set<Uuid>): int
    requires keys <= payments.Keys
  {
    if keys == {} then 0
    else
      var k := Pick(keys);
      CapturedCents(Some(payments[k])) + TotalCaptured(payments, keys - {k})
  }

  lemma {:induction false} SumInAll(ledger: seq<Row<P.Entry>>, keys: set<Uuid>, d: P.Direction)
    requires forall i | 0 <= i < |ledger| :: ledger[i].key in keys
    ensures SumIn(ledger, keys, d) == SumAll(ledger, d)
  {
    if ledger != [] {
      SumInAll(ledger[..|ledger| - 1], keys, d);
    }
  }

  lemma {:induction false} SumInEmpty(ledger: seq<Row<P.Entry>>, d: P.Direction)
    ensures SumIn(ledger, {}, d) == 0
  {
    if ledger != [] {
      SumInEmpty(ledger[..|ledger| - 1], d);
    }
  }

  // One booking's entries can be summed apart from the others'.
  lemma {:induction false} SumInSplits(ledger: seq<Row<P.Entry>>, keys: set<Uuid>, k: Uuid, d: P.Direction)
    requires k in keys
    ensures SumIn(ledger, keys, d) == SumIn(ledger, keys - {k}, d) + Sum(Of(ledger, k), d)
  {
    if ledger != [] {
      var init, r := ledger[..|ledger| - 1], ledger[|ledger| - 1];
      SumInSplits(init, keys, k, d);
      if r.key == k {
        SumConcat(Of(init, k), [r.value], d);
        SumOne(r.value, d);
      } else {
        assert Of(ledger, k) == Of(init, k);
      }
    }
  }

  lemma {:induction false} LedgerAddsUp(s: System, keys: set<Uuid>, d: P.Direction)
    requires Reachable(s) && keys <= s.payment.payments.Keys
    ensures SumIn(s.payment.ledger, keys, d) == TotalCaptured(s.payment.payments, keys)
    decreases keys
  {
    hide Reachable;
    if keys == {} {
      SumInEmpty(s.payment.ledger, d);
    } else {
      var k := Pick(keys);
      SumInSplits(s.payment.ledger, keys, k, d);
      LedgerAddsUp(s, keys - {k}, d);
      Guarantees.LedgerConservation(s, k);
    }
  }

  lemma LedgerBalancesGlobally(s: System)
    requires Reachable(s)
    ensures SumAll(s.payment.ledger, P.Debit) == SumAll(s.payment.ledger, P.Credit)
      == TotalCaptured(s.payment.payments, s.payment.payments.Keys)
  {
    hide Reachable;
    var keys := s.payment.payments.Keys;
    forall i | 0 <= i < |s.payment.ledger| ensures s.payment.ledger[i].key in keys {
      OfMember(s.payment.ledger, s.payment.ledger[i].key, i);
      Guarantees.LedgerConservation(s, s.payment.ledger[i].key);
    }
    SumInAll(s.payment.ledger, keys, P.Debit);
    SumInAll(s.payment.ledger, keys, P.Credit);
    LedgerAddsUp(s, keys, P.Debit);
    LedgerAddsUp(s, keys, P.Credit);
  }
}
