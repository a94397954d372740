/** Small shared vocabulary: options, the instrument registry and cyclic scanning. */

module Wrappers {
  datatype Option<+T> = None | Some(value: T)

  function Max(a: int, b: int): int { if a < b then b else a }

  function Min(a: int, b: int): int { if a < b then a else b }

  lemma {:induction false} SubsetSize<T>(a: set<T>, b: set<T>)
    requires a <= b
    ensures |a| <= |b|
  {
    if a != {} {
      var x :| x in a;
      SubsetSize(a - {x}, b - {x});
    }
  }
}

/** The registry of supported pairs (packages/contracts/instrument_specs.json). */
module Instruments {
  import opened Wrappers

  datatype Instrument = EURUSD | GBPUSD | USDJPY | AUDUSD

  const SUPPORTED: seq<Instrument> := [EURUSD, GBPUSD, USDJPY, AUDUSD]

  /** Position of an instrument in SUPPORTED. */
  function Rank(i: Instrument): nat {
    match i
    case EURUSD => 0
    case GBPUSD => 1
    case USDJPY => 2
    case AUDUSD => 3
  }

  lemma RankInverse(i: Instrument)
    ensures Rank(i) < |SUPPORTED| && SUPPORTED[Rank(i)] == i
  {
  }

  function Name(i: Instrument): string {
    match i
    case EURUSD => "EURUSD"
    case GBPUSD => "GBPUSD"
    case USDJPY => "USDJPY"
    case AUDUSD => "AUDUSD"
  }

  function Named(s: string): Option<Instrument> {
    if s == "EURUSD" then Some(EURUSD)
    else if s == "GBPUSD" then Some(GBPUSD)
    else if s == "USDJPY" then Some(USDJPY)
    else if s == "AUDUSD" then Some(AUDUSD)
    else None
  }

  lemma NamedInverse(i: Instrument)
    ensures Named(Name(i)) == Some(i)
  {
    assert "EURUSD"[0] == 'E' && "GBPUSD"[0] == 'G' && "USDJPY"[0] == 'U' && "AUDUSD"[0] == 'A';
  }

  /** One value per supported pair: Object.fromEntries over SUPPORTED. */
  function Everywhere<T>(value: T): (m: map<Instrument, T>)
    ensures forall i: Instrument :: i in m && m[i] == value
  {
    assert forall i: Instrument :: SUPPORTED[Rank(i)] == i && i in SUPPORTED;
    map i: Instrument | i in SUPPORTED :: value
  }

  datatype Spec = Spec(
    pipSize: real, minPrice: real, maxPrice: real, spreadPips: real, jumpPips: real,
    decimalsMin: nat, decimalsMax: nat)

  function SpecOf(i: Instrument): Spec {
    match i
    case EURUSD => Spec(0.0001, 0.5, 2.5, 5.0, 20.0, 4, 6)
    case GBPUSD => Spec(0.0001, 0.5, 3.5, 5.0, 20.0, 4, 6)
    case USDJPY => Spec(0.01, 50.0, 250.0, 5.0, 20.0, 2, 4)
    case AUDUSD => Spec(0.0001, 0.2, 2.0, 5.0, 20.0, 4, 6)
  }
}

/** The cyclic scan used by the browser outbox and by the collector queue: look at
    n groups from a cursor, take the first ready one and put the cursor just after it. */
module RoundRobin {
  import opened Wrappers

  /** How many groups the scan passes before it looks at group k. */
  function Distance(n: nat, cursor: nat, k: nat): nat
    requires cursor < n && k < n
  {
    if cursor <= k then k - cursor else k + n - cursor
  }

  /** First ready group from `cursor`, after `offset` groups were already passed. */
  function Next(ready: seq<bool>, cursor: nat, offset: nat): Option<nat>
    requires cursor < |ready| && offset <= |ready|
    decreases |ready| - offset
  {
    if offset == |ready| then None
    else
      var k := (cursor + offset) % |ready|;
      if ready[k] then Some(k) else Next(ready, cursor, offset + 1)
  }

  lemma AtOffset(n: nat, cursor: nat, offset: nat)
    requires cursor < n && offset < n
    ensures Distance(n, cursor, (cursor + offset) % n) == offset
  {
    if cursor + offset < n {
      assert (cursor + offset) % n == cursor + offset;
    } else {
      assert (cursor + offset) % n == cursor + offset - n;
    }
  }

  /** The scan misses nothing, and what it takes is the nearest ready group. */
  lemma {:induction false} NextIsNearest(ready: seq<bool>, cursor: nat, offset: nat)
    requires cursor < |ready| && offset <= |ready|
    requires forall k: nat | k < |ready| && ready[k] :: offset <= Distance(|ready|, cursor, k)
    ensures Next(ready, cursor, offset) == None <==> forall k: nat | k < |ready| :: !ready[k]
    ensures var r := Next(ready, cursor, offset);
            r.Some? ==>
              && r.value < |ready| && ready[r.value]
              && forall k: nat | k < |ready| && ready[k] ::
                   Distance(|ready|, cursor, r.value) <= Distance(|ready|, cursor, k)
    decreases |ready| - offset
  {
    if offset < |ready| {
      var k := (cursor + offset) % |ready|;
      AtOffset(|ready|, cursor, offset);
      if !ready[k] {
        forall j: nat | j < |ready| && ready[j]
          ensures offset + 1 <= Distance(|ready|, cursor, j)
        {
          if Distance(|ready|, cursor, j) == offset {
            assert false;
          }
        }
        NextIsNearest(ready, cursor, offset + 1);
      }
    }
  }

  lemma Wraps(n: nat, k: nat)
    requires k < n
    ensures (k + 1) % n == if k + 1 < n then k + 1 else 0
  {
    if k + 1 < n {
      assert (k + 1) % n == k + 1;
    } else {
      assert (k + 1) % n == 0;
    }
  }

  /** Serving a nearer group k brings every other ready group j strictly closer. */
  lemma ServingOthersComesCloser(n: nat, cursor: nat, k: nat, j: nat)
    requires cursor < n && k < n && j < n && k != j
    requires Distance(n, cursor, k) <= Distance(n, cursor, j)
    ensures (k + 1) % n < n
    ensures Distance(n, (k + 1) % n, j) == Distance(n, cursor, j) - Distance(n, cursor, k) - 1
  {
    Wraps(n, k);
  }

  /** Distances measured after serving j continue those measured before. */
  lemma DistancesChain(n: nat, cursor: nat, j: nat, k: nat)
    requires cursor < n && j < n && k < n
    requires (j + 1) % n < n && Distance(n, cursor, j) + 1 + Distance(n, (j + 1) % n, k) < n
    ensures Distance(n, cursor, k) == Distance(n, cursor, j) + 1 + Distance(n, (j + 1) % n, k)
  {
    Wraps(n, j);
  }
}
