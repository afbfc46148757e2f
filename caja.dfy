// The cash-box ledger (`resumen_caja`): every purchase paid from a box and
// every sale paid into one becomes a signed movement of that box; each box's
// movements are sorted by date (newest first) and then, stably, by
// transaction id; movements of a transaction get a colour from a hash of
// its id; each box's balance is its rounded sum.

module Caja {
  import opened Common
  import opened Text
  import opened Sorting
  import opened Period
  import opened Records
  import opened Vat

  datatype OpKind = PurchaseOp | SaleOp

  /** One line of a box's statement; `color` is set when the statement is coloured. */
  datatype Movement = Movement(
    kind: OpKind,
    date: Date,
    detail: Option<string>,
    amount: real,
    tid: Option<string>,
    personal: Option<bool>,
    color: Option<nat>)

  /**
   * The cash a purchase takes out of its box: the net amount plus the VAT
   * that is not credited. A missing percentage counts as fully deductible,
   * and the percentage is not forced into [0, 1].
   */
  function PurchaseOutflow(p: Purchase): real
  {
    OrZero(p.net) + VatOf(p.vat21, p.vat105) * (1.0 - p.deductiblePct.GetOr(1.0))
  }

  /** The signed movement of a purchase: money out. */
  function PurchaseMovement(p: Purchase): Movement
  {
    Movement(PurchaseOp, p.date, p.description, -PurchaseOutflow(p), p.transactionId, p.personal, None)
  }

  /** The signed movement of a sale: its total, with the net-plus-VAT fallback, in. */
  function SaleMovement(v: Sale): Movement
  {
    Movement(SaleOp, v.date, v.description, SaleTotal(v), v.transactionId, Some(false), None)
  }

  /**
   * A purchase with its own percentage in [0, 1] takes out exactly its
   * gross amount less the VAT the dashboard credits for it; one without a
   * percentage takes out only its net amount, whatever the dashboard
   * defaults are.
   */
  lemma OutflowAgainstCredit(p: Purchase, normalPct: real, personalPct: real)
    ensures p.deductiblePct.Some? && 0.0 <= p.deductiblePct.value <= 1.0
            ==> PurchaseOutflow(p) == OrZero(p.net) + VatBase(p) - Credit(p, normalPct, personalPct)
    ensures p.deductiblePct.None? ==> PurchaseOutflow(p) == OrZero(p.net)
  {
    if p.deductiblePct.Some? && 0.0 <= p.deductiblePct.value <= 1.0 {
      var b := VatBase(p);
      var e := p.deductiblePct.value;
      assert EffectivePct(p, normalPct, personalPct) == e;
      assert b * (1.0 - e) == b - b * e;
    }
  }

  /** With an in-range percentage and non-negative amounts, the outflow lies between net and gross. */
  lemma OutflowBounds(p: Purchase)
    requires p.deductiblePct.None? || 0.0 <= p.deductiblePct.value <= 1.0
    requires VatOf(p.vat21, p.vat105) >= 0.0
    ensures OrZero(p.net) <= PurchaseOutflow(p) <= OrZero(p.net) + VatOf(p.vat21, p.vat105)
  {
    ScaleBounds(VatOf(p.vat21, p.vat105), 1.0 - p.deductiblePct.GetOr(1.0));
  }

  /** The movements of box `box` coming from purchases, in store order. */
  function PurchaseMovs(ps: seq<Purchase>, box: string): seq<Movement>
  {
    if ps == [] then []
    else PurchaseMovs(ps[..|ps| - 1], box)
         + (if box != [] && ps[|ps| - 1].source == Some(box) then [PurchaseMovement(ps[|ps| - 1])] else [])
  }

  function SaleMovs(vs: seq<Sale>, box: string): seq<Movement>
  {
    if vs == [] then []
    else SaleMovs(vs[..|vs| - 1], box)
         + (if box != [] && vs[|vs| - 1].destination == Some(box) then [SaleMovement(vs[|vs| - 1])] else [])
  }

  /** The boxes named by purchases (`origen`) and by sales (`destino`). */
  function PurchaseBoxes(ps: seq<Purchase>): set<string>
  {
    if ps == [] then {}
    else PurchaseBoxes(ps[..|ps| - 1]) + (if Present(ps[|ps| - 1].source) then {ps[|ps| - 1].source.value} else {})
  }

  function SaleBoxes(vs: seq<Sale>): set<string>
  {
    if vs == [] then {}
    else SaleBoxes(vs[..|vs| - 1]) + (if Present(vs[|vs| - 1].destination) then {vs[|vs| - 1].destination.value} else {})
  }

  /** The statement of every box: its purchase movements, then its sale movements. */
  function LedgerSpec(ps: seq<Purchase>, vs: seq<Sale>): map<string, seq<Movement>>
  {
    map k | k in PurchaseBoxes(ps) + SaleBoxes(vs) :: PurchaseMovs(ps, k) + SaleMovs(vs, k)
  }

  lemma {:induction false} PurchaseMovsOutside(ps: seq<Purchase>, box: string)
    requires box !in PurchaseBoxes(ps)
    ensures PurchaseMovs(ps, box) == []
  {
    if ps != [] {
      PurchaseMovsOutside(ps[..|ps| - 1], box);
    }
  }

  lemma {:induction false} SaleMovsOutside(vs: seq<Sale>, box: string)
    requires box !in SaleBoxes(vs)
    ensures SaleMovs(vs, box) == []
  {
    if vs != [] {
      SaleMovsOutside(vs[..|vs| - 1], box);
    }
  }

  /** A box appears exactly when some purchase or sale names it, and then it has a movement. */
  lemma {:induction false} BoxesHaveMovements(ps: seq<Purchase>, vs: seq<Sale>, box: string)
    ensures box in LedgerSpec(ps, vs) <==> PurchaseMovs(ps, box) + SaleMovs(vs, box) != []
  {
    if box in PurchaseBoxes(ps) {
      PurchaseBoxMoves(ps, box);
    } else if box in SaleBoxes(vs) {
      SaleBoxMoves(vs, box);
    } else {
      PurchaseMovsOutside(ps, box);
      SaleMovsOutside(vs, box);
    }
  }

  lemma {:induction false} PurchaseBoxMoves(ps: seq<Purchase>, box: string)
    requires box in PurchaseBoxes(ps)
    ensures PurchaseMovs(ps, box) != []
  {
    var init := ps[..|ps| - 1];
    if box in PurchaseBoxes(init) {
      PurchaseBoxMoves(init, box);
    }
  }

  lemma {:induction false} SaleBoxMoves(vs: seq<Sale>, box: string)
    requires box in SaleBoxes(vs)
    ensures SaleMovs(vs, box) != []
  {
    var init := vs[..|vs| - 1];
    if box in SaleBoxes(init) {
      SaleBoxMoves(init, box);
    }
  }

  lemma PurchaseStep(ps: seq<Purchase>, i: nat)
    requires i < |ps|
    ensures PurchaseBoxes(ps[..i + 1]) == PurchaseBoxes(ps[..i]) + (if Present(ps[i].source) then {ps[i].source.value} else {})
    ensures forall k :: PurchaseMovs(ps[..i + 1], k)
              == PurchaseMovs(ps[..i], k) + (if k != [] && ps[i].source == Some(k) then [PurchaseMovement(ps[i])] else [])
  {
    assert ps[..i + 1][..i] == ps[..i];
  }

  lemma SaleStep(vs: seq<Sale>, j: nat)
    requires j < |vs|
    ensures SaleBoxes(vs[..j + 1]) == SaleBoxes(vs[..j]) + (if Present(vs[j].destination) then {vs[j].destination.value} else {})
    ensures forall k :: SaleMovs(vs[..j + 1], k)
              == SaleMovs(vs[..j], k) + (if k != [] && vs[j].destination == Some(k) then [SaleMovement(vs[j])] else [])
  {
    assert vs[..j + 1][..j] == vs[..j];
  }

  lemma SaleStepAt(vs: seq<Sale>, j: nat, k: string)
    requires j < |vs|
    ensures SaleMovs(vs[..j + 1], k)
            == SaleMovs(vs[..j], k) + (if k != [] && vs[j].destination == Some(k) then [SaleMovement(vs[j])] else [])
  {
    assert vs[..j + 1][..j] == vs[..j];
  }

  lemma SaleBoxesStep(vs: seq<Sale>, j: nat)
    requires j < |vs|
    ensures SaleBoxes(vs[..j + 1]) == SaleBoxes(vs[..j]) + (if Present(vs[j].destination) then {vs[j].destination.value} else {})
  {
    assert vs[..j + 1][..j] == vs[..j];
  }

  /** The loop over the purchases, appending as `setdefault(origen, []).append(...)` does. */
  method CollectPurchases(ps: seq<Purchase>) returns (ledger: map<string, seq<Movement>>)
    ensures ledger.Keys == PurchaseBoxes(ps)
    ensures forall k :: k in ledger ==> ledger[k] == PurchaseMovs(ps, k)
  {
    ledger := map[];
    for i := 0 to |ps|
      invariant ledger.Keys == PurchaseBoxes(ps[..i])
      invariant forall k :: k in ledger ==> ledger[k] == PurchaseMovs(ps[..i], k)
    {
      var p := ps[i];
      PurchaseStep(ps, i);
      if Present(p.source) {
        var b := p.source.value;
        var current := if b in ledger then ledger[b] else [];
        if b !in ledger {
          PurchaseMovsOutside(ps[..i], b);
        }
        ledger := ledger[b := current + [PurchaseMovement(p)]];
      }
    }
    assert ps[..|ps|] == ps;
  }

  /** The loop over the sales, appending to the statements the purchases started. */
  method CollectSales(vs: seq<Sale>, start: map<string, seq<Movement>>) returns (ledger: map<string, seq<Movement>>)
    ensures ledger.Keys == start.Keys + SaleBoxes(vs)
    ensures forall k :: k in ledger ==> ledger[k] == Opening(start, k) + SaleMovs(vs, k)
  {
    ledger := start;
    for j := 0 to |vs|
      invariant SalesCollected(vs, j, start, ledger)
    {
      var v := vs[j];
      if Present(v.destination) {
        var b := v.destination.value;
        var current := if b in ledger then ledger[b] else [];
        SaleAdded(vs, j, start, ledger, b);
        ledger := ledger[b := current + [SaleMovement(v)]];
      } else {
        SaleSkipped(vs, j, start, ledger);
      }
    }
    assert vs[..|vs|] == vs;
  }

  /** What a box's statement held before the sales loop. */
  function Opening(start: map<string, seq<Movement>>, k: string): seq<Movement>
  {
    if k in start then start[k] else []
  }

  /** The sales loop's description of the statements after the first `j` sales. */
  predicate SalesCollected(vs: seq<Sale>, j: nat, start: map<string, seq<Movement>>, ledger: map<string, seq<Movement>>)
    requires j <= |vs|
  {
    && ledger.Keys == start.Keys + SaleBoxes(vs[..j])
    && forall k :: k in ledger ==> ledger[k] == Opening(start, k) + SaleMovs(vs[..j], k)
  }

  /** A sale paid into no box leaves the statements as they are. */
  lemma SaleSkipped(vs: seq<Sale>, j: nat, start: map<string, seq<Movement>>, ledger: map<string, seq<Movement>>)
    requires j < |vs| && !Present(vs[j].destination)
    requires SalesCollected(vs, j, start, ledger)
    ensures SalesCollected(vs, j + 1, start, ledger)
  {
    SaleStep(vs, j);
  }

  /** A sale paid into box `b` is appended to that box's statement, opened empty if need be. */
  lemma SaleAdded(vs: seq<Sale>, j: nat, start: map<string, seq<Movement>>, before: map<string, seq<Movement>>, b: string)
    requires j < |vs| && Present(vs[j].destination) && b == vs[j].destination.value
    requires SalesCollected(vs, j, start, before)
    ensures SalesCollected(vs, j + 1, start, before[b := (if b in before then before[b] else []) + [SaleMovement(vs[j])]])
  {
    var after := before[b := (if b in before then before[b] else []) + [SaleMovement(vs[j])]];
    SaleAddedKeys(vs, j, start, before, b);
    forall k | k in after ensures after[k] == Opening(start, k) + SaleMovs(vs[..j + 1], k) {
      if k == b {
        SaleAddedHere(vs, j, start, before, b);
      } else {
        assert after[k] == before[k];
        SaleAddedElsewhere(vs, j, start, before, b, k);
      }
    }
  }

  lemma SaleAddedKeys(vs: seq<Sale>, j: nat, start: map<string, seq<Movement>>, before: map<string, seq<Movement>>, b: string)
    requires j < |vs| && Present(vs[j].destination) && b == vs[j].destination.value
    requires before.Keys == start.Keys + SaleBoxes(vs[..j])
    ensures before.Keys + {b} == start.Keys + SaleBoxes(vs[..j + 1])
  {
    SaleBoxesStep(vs, j);
  }

  lemma SaleAddedHere(vs: seq<Sale>, j: nat, start: map<string, seq<Movement>>, before: map<string, seq<Movement>>, b: string)
    requires j < |vs| && Present(vs[j].destination) && b == vs[j].destination.value
    requires SalesCollected(vs, j, start, before)
    ensures (if b in before then before[b] else []) + [SaleMovement(vs[j])] == Opening(start, b) + SaleMovs(vs[..j + 1], b)
  {
    SaleStepAt(vs, j, b);
    if b !in before {
      SaleMovsOutside(vs[..j], b);
    }
  }

  lemma SaleAddedElsewhere(vs: seq<Sale>, j: nat, start: map<string, seq<Movement>>, before: map<string, seq<Movement>>, b: string, k: string)
    requires j < |vs| && Present(vs[j].destination) && b == vs[j].destination.value
    requires SalesCollected(vs, j, start, before)
    requires k != b && k in before
    ensures before[k] == Opening(start, k) + SaleMovs(vs[..j + 1], k)
  {
    SaleStepAt(vs, j, k);
  }

  /** Both loops: the statements of all boxes, purchases first. */
  method CollectMovements(ps: seq<Purchase>, vs: seq<Sale>) returns (ledger: map<string, seq<Movement>>)
    ensures ledger == LedgerSpec(ps, vs)
  {
    var start := CollectPurchases(ps);
    ledger := CollectSales(vs, start);
    forall k | k in ledger && k !in start ensures PurchaseMovs(ps, k) == [] {
      PurchaseMovsOutside(ps, k);
    }
  }

  /** The cash a box received from sales and paid for purchases. */
  function BoxInflow(vs: seq<Sale>, box: string): real
  {
    if vs == [] then 0.0
    else BoxInflow(vs[..|vs| - 1], box)
         + (if box != [] && vs[|vs| - 1].destination == Some(box) then SaleTotal(vs[|vs| - 1]) else 0.0)
  }

  function BoxOutflow(ps: seq<Purchase>, box: string): real
  {
    if ps == [] then 0.0
    else BoxOutflow(ps[..|ps| - 1], box)
         + (if box != [] && ps[|ps| - 1].source == Some(box) then PurchaseOutflow(ps[|ps| - 1]) else 0.0)
  }

  function Amount(m: Movement): real
  {
    m.amount
  }

  /** A box's movements add up to what its sales brought in less what its purchases took out. */
  lemma BoxSum(ps: seq<Purchase>, vs: seq<Sale>, box: string)
    ensures SumBy(PurchaseMovs(ps, box) + SaleMovs(vs, box), Amount) == BoxInflow(vs, box) - BoxOutflow(ps, box)
  {
    SumByConcat(PurchaseMovs(ps, box), SaleMovs(vs, box), Amount);
    PurchaseSum(ps, box);
    SaleSum(vs, box);
  }

  lemma {:induction false} PurchaseSum(ps: seq<Purchase>, box: string)
    ensures SumBy(PurchaseMovs(ps, box), Amount) == -BoxOutflow(ps, box)
  {
    if ps != [] {
      var init := ps[..|ps| - 1];
      PurchaseSum(init, box);
      var tail := if box != [] && ps[|ps| - 1].source == Some(box) then [PurchaseMovement(ps[|ps| - 1])] else [];
      SumByConcat(PurchaseMovs(init, box), tail, Amount);
      assert SumBy(tail, Amount) == if tail == [] then 0.0 else -PurchaseOutflow(ps[|ps| - 1]) by {
        if tail != [] { assert tail[..0] == []; }
      }
    }
  }

  lemma {:induction false} SaleSum(vs: seq<Sale>, box: string)
    ensures SumBy(SaleMovs(vs, box), Amount) == BoxInflow(vs, box)
  {
    if vs != [] {
      var init := vs[..|vs| - 1];
      SaleSum(init, box);
      var tail := if box != [] && vs[|vs| - 1].destination == Some(box) then [SaleMovement(vs[|vs| - 1])] else [];
      SumByConcat(SaleMovs(init, box), tail, Amount);
      assert SumBy(tail, Amount) == if tail == [] then 0.0 else SaleTotal(vs[|vs| - 1]) by {
        if tail != [] { assert tail[..0] == []; }
      }
    }
  }

  /** Calendar order of dates. */
  predicate DateLe(a: Date, b: Date)
  {
    a.year < b.year || (a.year == b.year && (a.month < b.month || (a.month == b.month && a.day <= b.day)))
  }

  /** `sort(key=fecha, reverse=True)`: newest first. */
  predicate NewestFirst(a: Movement, b: Movement)
  {
    DateLe(b.date, a.date)
  }

  /** The sort key of a movement's transaction: its id, or U+FFFF when it has none. */
  function TidKey(m: Movement): string
  {
    if Present(m.tid) then m.tid.value else "\U{FFFF}"
  }

  /** `sort(key=transaccion_id or '￿')` */
  predicate ByTransaction(a: Movement, b: Movement)
  {
    StrLe(TidKey(a), TidKey(b))
  }

  lemma NewestFirstPreorder()
    ensures IsTotalPreorder(NewestFirst)
  {
  }

  lemma ByTransactionPreorder()
    ensures IsTotalPreorder(ByTransaction)
  {
    forall a: Movement, b: Movement ensures ByTransaction(a, b) || ByTransaction(b, a) {
      StrLtTotal(TidKey(a), TidKey(b));
    }
    forall a: Movement, b: Movement, c: Movement | ByTransaction(a, b) && ByTransaction(b, c)
      ensures ByTransaction(a, c)
    {
      if TidKey(a) != TidKey(b) && TidKey(b) != TidKey(c) {
        StrLtTransitive(TidKey(a), TidKey(b), TidKey(c));
      }
    }
  }

  /** The two in-place sorts of a box's statement. */
  function OrderMovements(ms: seq<Movement>): seq<Movement>
  {
    Sort(Sort(ms, NewestFirst), ByTransaction)
  }

  /**
   * A sorted statement holds the same movements, ordered by transaction key
   * and, within one transaction, newest first; its sum is unchanged.
   */
  lemma OrderMovementsFacts(ms: seq<Movement>)
    ensures multiset(OrderMovements(ms)) == multiset(ms)
    ensures var o := OrderMovements(ms);
            forall i, j :: 0 <= i < j < |o| ==>
              StrLe(TidKey(o[i]), TidKey(o[j])) && (TidKey(o[i]) == TidKey(o[j]) ==> DateLe(o[j].date, o[i].date))
    ensures SumBy(OrderMovements(ms), Amount) == SumBy(ms, Amount)
  {
    NewestFirstPreorder();
    ByTransactionPreorder();
    SortSorted(ms, NewestFirst);
    SortLex(Sort(ms, NewestFirst), ByTransaction, NewestFirst);
    SortSum(ms, NewestFirst, Amount);
    SortSum(Sort(ms, NewestFirst), ByTransaction, Amount);
  }

  /**
   * When every transaction id sorts below U+FFFF, the movements without an
   * id come after all the movements with one.
   */
  lemma MissingIdsLast(ms: seq<Movement>)
    requires forall m :: m in ms && Present(m.tid) ==> StrLt(m.tid.value, "\U{FFFF}")
    ensures var o := OrderMovements(ms);
            forall i, j :: 0 <= i < j < |o| && !Present(o[i].tid) ==> !Present(o[j].tid)
  {
    OrderMovementsFacts(ms);
    var o := OrderMovements(ms);
    forall i, j | 0 <= i < j < |o| && !Present(o[i].tid) ensures !Present(o[j].tid) {
      assert o[j] in multiset(ms) by { assert o[j] in multiset(o); }
      if Present(o[j].tid) {
        assert StrLe("\U{FFFF}", o[j].tid.value);
        StrLtIrreflexive("\U{FFFF}");
        if o[j].tid.value != "\U{FFFF}" {
          StrLtAsymmetric(o[j].tid.value, "\U{FFFF}");
        }
      }
    }
  }

  /** `color_index(value, n)`: the md5 digest of the value, read as an integer, modulo `n`. */
  function ColorIndex(md5: string -> nat, value: string, n: nat): (r: nat)
    requires n > 0
    ensures r < n
  {
    md5(value) % n
  }

  /** A movement's colour: a hash of its transaction id among eight colours, none without an id. */
  function ColorFor(md5: string -> nat, tid: Option<string>): (r: Option<nat>)
    ensures r.Some? <==> Present(tid)
    ensures r.Some? ==> r.value < 8
  {
    if Present(tid) then Some(ColorIndex(md5, tid.value, 8)) else None
  }

  function Colored(md5: string -> nat, m: Movement): Movement
  {
    m.(color := ColorFor(md5, m.tid))
  }

  /** Every movement of a statement with its colour set. */
  function ColorAll(md5: string -> nat, ms: seq<Movement>): (r: seq<Movement>)
    ensures |r| == |ms|
  {
    seq(|ms|, i requires 0 <= i < |ms| => Colored(md5, ms[i]))
  }

  /** The colouring loop over a statement. */
  method ColorMovements(md5: string -> nat, ms: seq<Movement>) returns (out: seq<Movement>)
    ensures |out| == |ms|
    ensures forall i :: 0 <= i < |ms| ==> out[i] == Colored(md5, ms[i])
  {
    out := [];
    for i := 0 to |ms|
      invariant |out| == i
      invariant forall j :: 0 <= j < i ==> out[j] == Colored(md5, ms[j])
    {
      var m := ms[i];
      var c := if Present(m.tid) then Some(ColorIndex(md5, m.tid.value, 8)) else None;
      out := out + [m.(color := c)];
    }
  }

  /**
   * Colouring changes no amount, date or transaction of a statement, and
   * movements of the same transaction get the same colour.
   */
  lemma ColoringFacts(md5: string -> nat, ms: seq<Movement>, out: seq<Movement>)
    requires |out| == |ms| && forall i :: 0 <= i < |ms| ==> out[i] == Colored(md5, ms[i])
    ensures forall i :: 0 <= i < |ms| ==> out[i].amount == ms[i].amount && out[i].date == ms[i].date && out[i].tid == ms[i].tid
    ensures forall i, j :: 0 <= i < |out| && 0 <= j < |out| && out[i].tid == out[j].tid ==> out[i].color == out[j].color
    ensures SumBy(out, Amount) == SumBy(ms, Amount)
  {
    AmountsKept(md5, ms, out);
  }

  lemma {:induction false} AmountsKept(md5: string -> nat, ms: seq<Movement>, out: seq<Movement>)
    requires |out| == |ms| && forall i :: 0 <= i < |ms| ==> out[i] == Colored(md5, ms[i])
    ensures SumBy(out, Amount) == SumBy(ms, Amount)
  {
    if ms != [] {
      AmountsKept(md5, ms[..|ms| - 1], out[..|out| - 1]);
    }
  }

  /** The rows `resumen_caja` reads: the period, then the transaction and box when given. */
  predicate PurchaseSelected(p: Purchase, sel: PeriodSelector, tidFilter: string, boxFilter: string)
  {
    Matches(sel, p.id, p.ym)
    && (tidFilter == [] || p.transactionId == Some(tidFilter))
    && (boxFilter == [] || p.source == Some(boxFilter))
  }

  predicate SaleSelected(v: Sale, sel: PeriodSelector, tidFilter: string, boxFilter: string)
  {
    Matches(sel, v.id, v.ym)
    && (tidFilter == [] || v.transactionId == Some(tidFilter))
    && (boxFilter == [] || v.destination == Some(boxFilter))
  }

  function SelectedPurchases(ps: seq<Purchase>, sel: PeriodSelector, tidFilter: string, boxFilter: string): seq<Purchase>
  {
    Filter(ps, (p: Purchase) => PurchaseSelected(p, sel, tidFilter, boxFilter))
  }

  function SelectedSales(vs: seq<Sale>, sel: PeriodSelector, tidFilter: string, boxFilter: string): seq<Sale>
  {
    Filter(vs, (v: Sale) => SaleSelected(v, sel, tidFilter, boxFilter))
  }

  /** The rounded balance of every box of a ledger. */
  function Balances(ledger: map<string, seq<Movement>>): (r: map<string, real>)
    ensures r.Keys == ledger.Keys
  {
    map k | k in ledger :: Round2(SumBy(ledger[k], Amount))
  }

  /** A box's statement as shown: its movements sorted, then coloured. */
  function Statement(md5: string -> nat, ms: seq<Movement>): seq<Movement>
  {
    ColorAll(md5, OrderMovements(ms))
  }

  /** The statement shown for each box keeps the box's movements and balance. */
  lemma StatementFacts(md5: string -> nat, ms: seq<Movement>)
    ensures multiset(OrderMovements(ms)) == multiset(ms)
    ensures |Statement(md5, ms)| == |ms|
    ensures SumBy(Statement(md5, ms), Amount) == SumBy(ms, Amount)
  {
    OrderMovementsFacts(ms);
    assert |OrderMovements(ms)| == |ms| by {
      assert |multiset(OrderMovements(ms))| == |multiset(ms)|;
    }
    ColoringFacts(md5, OrderMovements(ms), Statement(md5, ms));
  }

  lemma StatementSum(md5: string -> nat, ms: seq<Movement>)
    ensures SumBy(Statement(md5, ms), Amount) == SumBy(ms, Amount)
  {
    StatementFacts(md5, ms);
  }

  lemma ColoredAll(md5: string -> nat, ms: seq<Movement>, out: seq<Movement>)
    requires |out| == |ms| && forall i :: 0 <= i < |ms| ==> out[i] == Colored(md5, ms[i])
    ensures out == ColorAll(md5, ms)
  {
  }

  /** Sorting and colouring one box's movements. */
  method ArrangeOne(md5: string -> nat, ms: seq<Movement>) returns (colored: seq<Movement>)
    ensures colored == Statement(md5, ms)
  {
    var ordered := OrderMovements(ms);
    colored := ColorMovements(md5, ordered);
    ColoredAll(md5, ordered, colored);
  }

  /** The sorting and colouring loop over the boxes. */
  method ArrangeStatements(raw: map<string, seq<Movement>>, md5: string -> nat) returns (ledger: map<string, seq<Movement>>)
    ensures ledger.Keys == raw.Keys
    ensures forall k :: k in ledger ==> ledger[k] == Statement(md5, raw[k])
  {
    ledger := map[];
    var pending := raw.Keys;
    while pending != {}
      invariant pending <= raw.Keys
      invariant ledger.Keys == raw.Keys - pending
      invariant forall k :: k in ledger ==> ledger[k] == Statement(md5, raw[k])
      decreases pending
    {
      var k :| k in pending;
      var colored := ArrangeOne(md5, raw[k]);
      ledger := ledger[k := colored];
      pending := pending - {k};
    }
  }

  /** `totales`: each box's rounded balance. */
  method BoxTotals(ledger: map<string, seq<Movement>>) returns (totals: map<string, real>)
    ensures totals == Balances(ledger)
  {
    totals := map[];
    var pending := ledger.Keys;
    while pending != {}
      invariant pending <= ledger.Keys
      invariant totals.Keys == ledger.Keys - pending
      invariant forall k :: k in totals ==> totals[k] == Round2(SumBy(ledger[k], Amount))
      decreases pending
    {
      var k :| k in pending;
      totals := totals[k := Round2(SumBy(ledger[k], Amount))];
      pending := pending - {k};
    }
    BalancesOf(ledger, totals);
  }

  lemma BalancesOf(ledger: map<string, seq<Movement>>, totals: map<string, real>)
    requires totals.Keys == ledger.Keys
    requires forall k :: k in totals ==> totals[k] == Round2(SumBy(ledger[k], Amount))
    ensures totals == Balances(ledger)
  {
  }

  /** Sorting and colouring the statements leaves every box's balance as it was. */
  lemma {:induction false} ArrangedBalances(raw: map<string, seq<Movement>>, md5: string -> nat, ledger: map<string, seq<Movement>>)
    requires ledger.Keys == raw.Keys
    requires forall k :: k in ledger ==> ledger[k] == Statement(md5, raw[k])
    ensures Balances(ledger) == Balances(raw)
  {
    forall k | k in ledger ensures SumBy(ledger[k], Amount) == SumBy(raw[k], Amount) {
      StatementSum(md5, raw[k]);
    }
    SameSumsSameBalances(ledger, raw);
  }

  lemma SameSumsSameBalances(a: map<string, seq<Movement>>, b: map<string, seq<Movement>>)
    requires a.Keys == b.Keys
    requires forall k :: k in a ==> SumBy(a[k], Amount) == SumBy(b[k], Amount)
    ensures Balances(a) == Balances(b)
  {
    forall k | k in a ensures Balances(a)[k] == Balances(b)[k] {
    }
  }

  /**
   * The whole `resumen_caja` computation for a year and month, an optional
   * transaction id and an optional box: each box's statement is its
   * selected movements sorted and coloured, its balance their rounded sum.
   */
  method ResumenCaja(ps: seq<Purchase>, vs: seq<Sale>, year: int, month: int, boxFilter: string, tidFilter: string, md5: string -> nat)
    returns (ledger: map<string, seq<Movement>>, totals: map<string, real>)
    ensures var spec := LedgerSpec(SelectedPurchases(ps, DashboardSelector(year, month), tidFilter, boxFilter),
                                   SelectedSales(vs, DashboardSelector(year, month), tidFilter, boxFilter));
            ledger.Keys == spec.Keys
            && (forall k :: k in ledger ==> ledger[k] == Statement(md5, spec[k]))
            && totals == Balances(spec)
  {
    var sel := DashboardSelector(year, month);
    var fps := SelectedPurchases(ps, sel, tidFilter, boxFilter);
    var fvs := SelectedSales(vs, sel, tidFilter, boxFilter);
    var raw := CollectMovements(fps, fvs);
    ledger := ArrangeStatements(raw, md5);
    totals := BoxTotals(ledger);
    ArrangedBalances(raw, md5, ledger);
  }
}
