/**
 * `findNextStation`: the job lists every (station, operation) pair it could
 * move to next, normalises four (or five) time readings over that list,
 * scores each pair by the reciprocal of a weighted sum of normalised
 * readings, and plans the first pair with the highest score.  Under
 * controlled or predictive material supply it also picks, per station, the
 * free AGV with the smallest supply time and reserves it for the planned
 * pair.
 *
 * The router, the AGVs' supply-time estimates and the simulation clock are
 * readings passed in as `Readings`.
 */
module Selection {
  import opened Wrappers
  import opened Products
  import opened Shopfloor

  /** A pair the job could move to: an enabled station capable of a next operation. */
  datatype Candidate = Candidate(station: Station, operation: Operation)

  /** The manager's material-supply mode (its flags are taken to be mutually exclusive). */
  datatype SupplyPolicy = NoSupply | Reactive | Controlled | Predictive

  /** The weights of the manager's strategy. */
  datatype Strategy = Strategy(pA: real, pB: real, pC: real, pD: real, pE: real, pF: real, pG: real, pH: real)

  /** What one free AGV reports for a candidate: itself, its best warehouse, and the supply time. */
  datatype SupplyOffer = SupplyOffer(agvId: string, warehouseId: string, time: real)

  /**
   * Readings from the job's collaborators: the clock, the router's transport
   * duration from the job's position to a station, and the offers of the
   * free AGVs for a candidate, in the order the manager lists them.
   */
  datatype Readings = Readings(
    now: real,
    transport: Station -> real,
    offers: Candidate -> seq<SupplyOffer>,
    policy: SupplyPolicy,
    strategy: Strategy)

  /** Whether the policy reserves AGVs when planning (controlled or predictive supply). */
  predicate ManagesSupply(policy: SupplyPolicy) {
    policy == Controlled || policy == Predictive
  }

  // ---------------------------------------------------------------------
  // Candidate enumeration
  // ---------------------------------------------------------------------

  /** The `filter(station => !station.disabled)`. */
  function Enabled(stations: seq<Station>): (r: seq<Station>)
    ensures forall s :: s in r <==> s in stations && !s.disabled
  {
    if stations == [] then []
    else
      var s := stations[|stations| - 1];
      Enabled(stations[..|stations| - 1]) + (if s.disabled then [] else [s])
  }

  /** The stations paired with one operation, in station order. */
  function PairWith(stations: seq<Station>, op: Operation): seq<Candidate> {
    if stations == [] then []
    else PairWith(stations[..|stations| - 1], op) + [Candidate(stations[|stations| - 1], op)]
  }

  /** All candidates: for each next operation in order, its enabled capable stations in order. */
  function Candidates(operations: seq<Operation>, capable: Operation -> seq<Station>): seq<Candidate> {
    if operations == [] then []
    else
      var op := operations[|operations| - 1];
      Candidates(operations[..|operations| - 1], capable) + PairWith(Enabled(capable(op)), op)
  }

  lemma {:induction false} PairWithIff(stations: seq<Station>, op: Operation, c: Candidate)
    ensures c in PairWith(stations, op) <==> c.operation == op && c.station in stations
  {
    if stations != [] {
      var init := stations[..|stations| - 1];
      PairWithIff(init, op, c);
      assert stations == init + [stations[|stations| - 1]];
    }
  }

  /** A pair is a candidate exactly when its operation is next and its station is capable of it and enabled. */
  lemma {:induction false} CandidatesIff(operations: seq<Operation>, capable: Operation -> seq<Station>, c: Candidate)
    ensures c in Candidates(operations, capable) <==>
      c.operation in operations && c.station in capable(c.operation) && !c.station.disabled
  {
    if operations != [] {
      var init, op := operations[..|operations| - 1], operations[|operations| - 1];
      CandidatesIff(init, capable, c);
      PairWithIff(Enabled(capable(op)), op, c);
      assert operations == init + [op];
    }
  }

  /** Along `cs`, the operations never go back in the order of `operations`. */
  ghost predicate InOperationOrder(operations: seq<Operation>, cs: seq<Candidate>) {
    forall i, j | 0 <= i < j < |cs| :: IndexOf(operations, cs[i].operation) <= IndexOf(operations, cs[j].operation)
  }

  /** Candidates come grouped by operation, in the order of the next operations. */
  lemma {:induction false} CandidatesOrdered(operations: seq<Operation>, capable: Operation -> seq<Station>)
    requires Distinct(operations)
    ensures InOperationOrder(operations, Candidates(operations, capable))
  {
    if operations != [] {
      var init, op := operations[..|operations| - 1], operations[|operations| - 1];
      assert operations == init + [op];
      assert Distinct(init) by {
        forall i, j | 0 <= i < j < |init| ensures init[i] != init[j] {
          assert init[i] == operations[i] && init[j] == operations[j];
        }
      }
      CandidatesOrdered(init, capable);
      var cs := Candidates(operations, capable);
      forall i, j | 0 <= i < j < |cs|
        ensures IndexOf(operations, cs[i].operation) <= IndexOf(operations, cs[j].operation)
      {
        OrderedPair(init, op, capable, i, j);
      }
    }
  }

  lemma OrderedPair(init: seq<Operation>, op: Operation, capable: Operation -> seq<Station>, i: nat, j: nat)
    requires Distinct(init + [op]) && InOperationOrder(init, Candidates(init, capable))
    requires i < j < |Candidates(init + [op], capable)|
    ensures var cs := Candidates(init + [op], capable);
      IndexOf(init + [op], cs[i].operation) <= IndexOf(init + [op], cs[j].operation)
  {
    var operations := init + [op];
    assert operations[..|operations| - 1] == init;
    var cs0 := Candidates(init, capable);
    var tail := PairWith(Enabled(capable(op)), op);
    var cs := Candidates(operations, capable);
    assert cs == cs0 + tail;
    if j < |cs0| {
      assert cs[i] == cs0[i] && cs[j] == cs0[j];
      RankInPrefix(init, op, capable, cs0[i]);
      RankInPrefix(init, op, capable, cs0[j]);
    } else {
      assert cs[j] == tail[j - |cs0|];
      RankOfLast(init, op, capable, cs[j]);
      if i < |cs0| {
        assert cs[i] == cs0[i];
        RankInPrefix(init, op, capable, cs0[i]);
      } else {
        assert cs[i] == tail[i - |cs0|];
        RankOfLast(init, op, capable, cs[i]);
      }
    }
  }

  lemma RankInPrefix(init: seq<Operation>, op: Operation, capable: Operation -> seq<Station>, c: Candidate)
    requires c in Candidates(init, capable)
    ensures IndexOf(init + [op], c.operation) == IndexOf(init, c.operation) < |init|
  {
    CandidatesIff(init, capable, c);
    IndexOfPrefix(init, op, c.operation);
  }

  lemma RankOfLast(init: seq<Operation>, op: Operation, capable: Operation -> seq<Station>, c: Candidate)
    requires Distinct(init + [op]) && c in PairWith(Enabled(capable(op)), op)
    ensures IndexOf(init + [op], c.operation) == |init|
  {
    PairWithIff(Enabled(capable(op)), op, c);
    IndexOfLast(init, op);
  }

  lemma IndexOfPrefix<T>(init: seq<T>, last: T, x: T)
    requires x in init
    ensures IndexOf(init + [last], x) == IndexOf(init, x) < |init|
  {
    var k := IndexOf(init, x);
    var s := init + [last];
    assert s[k] == x;
    assert forall i | 0 <= i < k :: s[i] == init[i];
  }

  lemma IndexOfLast<T>(init: seq<T>, last: T)
    requires Distinct(init + [last])
    ensures IndexOf(init + [last], last) == |init|
  {
    var s := init + [last];
    assert s[|init|] == last;
    assert forall i | 0 <= i < |init| :: s[i] != s[|init|];
  }

  /** The nested `forEach` that pushes `{station, operation}` for every enabled capable station. */
  method EnumerateCandidates(nextOperations: seq<Operation>, capable: Operation -> seq<Station>)
    returns (jobOperations: seq<Candidate>)
    ensures jobOperations == Candidates(nextOperations, capable)
  {
    jobOperations := [];
    for k := 0 to |nextOperations|
      invariant jobOperations == Candidates(nextOperations[..k], capable)
    {
      var operation := nextOperations[k];
      var stations := Enabled(capable(operation));
      ghost var before := jobOperations;
      for m := 0 to |stations|
        invariant jobOperations == before + PairWith(stations[..m], operation)
      {
        jobOperations := jobOperations + [Candidate(stations[m], operation)];
        assert stations[..m + 1][..m] == stations[..m];
      }
      assert stations[..|stations|] == stations;
      assert nextOperations[..k + 1][..k] == nextOperations[..k];
    }
    assert nextOperations[..|nextOperations|] == nextOperations;
  }

  // ---------------------------------------------------------------------
  // Normalisation
  // ---------------------------------------------------------------------

  /** The four per-candidate readings the score weighs. */
  datatype Quantity = TransportTime | ProcessingTime | RemainingStationTime | QueuedOperationsDuration

  /** The remaining time of a station's current work, never negative. */
  function RemainingStationTimeOf(station: Station, now: real): (t: real)
    ensures t >= 0.0 && t >= station.expectedFinishTime - now
    ensures t == 0.0 || t == station.expectedFinishTime - now
  {
    if 0.0 > station.expectedFinishTime - now then 0.0 else station.expectedFinishTime - now
  }

  function Reading(q: Quantity, c: Candidate, r: Readings): real {
    match q
    case TransportTime => r.transport(c.station)
    case ProcessingTime => c.operation.processingTime
    case RemainingStationTime => RemainingStationTimeOf(c.station, r.now)
    case QueuedOperationsDuration => QueuedDuration(c.station.queuedJobOperations)
  }

  /** The sum of one reading over the candidates. */
  function SumOver(cs: seq<Candidate>, q: Quantity, r: Readings): real {
    if cs == [] then 0.0 else SumOver(cs[..|cs| - 1], q, r) + Reading(q, cs[|cs| - 1], r)
  }

  /** `all / count`, replaced by 1 when `all` is 0. */
  function Mean(all: real, count: nat): (m: real)
    requires count == 0 ==> all == 0.0
    ensures m != 0.0
    ensures all == 0.0 ==> m == 1.0
    ensures all != 0.0 ==> m * count as real == all
  {
    if all == 0.0 then 1.0 else all / count as real
  }

  /**
   * The normaliser of one reading.  The transport accumulators start at 1,
   * so the transport normaliser is (1 + sum) / (1 + count); the others are
   * sum / count.
   */
  function Normaliser(cs: seq<Candidate>, q: Quantity, r: Readings): (n: real)
    ensures n != 0.0
  {
    if q == TransportTime then Mean(1.0 + SumOver(cs, q, r), 1 + |cs|)
    else Mean(SumOver(cs, q, r), |cs|)
  }

  /** The loop that accumulates one reading over the candidates. */
  method SumReadings(jobOperations: seq<Candidate>, q: Quantity, r: Readings) returns (all: real)
    ensures all == SumOver(jobOperations, q, r)
  {
    all := 0.0;
    for k := 0 to |jobOperations|
      invariant all == SumOver(jobOperations[..k], q, r)
    {
      var c := jobOperations[k];
      var reading;
      match q {
        case TransportTime => reading := r.transport(c.station);
        case ProcessingTime => reading := c.operation.processingTime;
        case RemainingStationTime =>
          reading := if 0.0 > c.station.expectedFinishTime - r.now then 0.0 else c.station.expectedFinishTime - r.now;
        case QueuedOperationsDuration => reading := SumQueuedDuration(c.station.queuedJobOperations);
      }
      all := all + reading;
      assert jobOperations[..k + 1][..k] == jobOperations[..k];
    }
    assert jobOperations[..|jobOperations|] == jobOperations;
  }

  lemma {:induction false} SumOverConstant(cs: seq<Candidate>, q: Quantity, r: Readings, v: real)
    requires forall c <- cs :: Reading(q, c, r) == v
    ensures SumOver(cs, q, r) == |cs| as real * v
  {
    if cs != [] {
      SumOverConstant(cs[..|cs| - 1], q, r, v);
      assert cs[|cs| - 1] in cs;
    }
  }

  /**
   * When every candidate has the same non-zero processing (remaining,
   * queued) time, that reading normalises to exactly 1.
   */
  lemma UniformReadingNormalisesToOne(cs: seq<Candidate>, q: Quantity, r: Readings, v: real)
    requires q != TransportTime && cs != [] && v != 0.0
    requires forall c <- cs :: Reading(q, c, r) == v
    ensures Reading(q, cs[0], r) / Normaliser(cs, q, r) == 1.0
  {
    UniformNormaliser(cs, q, r, v);
    assert cs[0] in cs;
    assert Reading(q, cs[0], r) == v;
    DivideBySelf(v);
  }

  lemma DivideBySelf(v: real)
    requires v != 0.0
    ensures v / v == 1.0
  {
  }

  /** The non-transport normaliser of a uniform reading is that reading. */
  lemma UniformNormaliser(cs: seq<Candidate>, q: Quantity, r: Readings, v: real)
    requires q != TransportTime && cs != [] && v != 0.0
    requires forall c <- cs :: Reading(q, c, r) == v
    ensures Normaliser(cs, q, r) == v
  {
    SumOverConstant(cs, q, r, v);
    MeanOfConstant(|cs|, v);
  }

  /** The mean of `count` copies of a non-zero `v` is `v`. */
  lemma MeanOfConstant(count: nat, v: real)
    requires count > 0 && v != 0.0
    ensures Mean(count as real * v, count) == v
  {
    var all := count as real * v;
    assert all != 0.0;
    var m := Mean(all, count);
    assert (m - v) * count as real == 0.0;
  }

  /**
   * The transport normaliser is biased by its accumulators starting at 1:
   * with the same transport time `t` at every one of `n` candidates it is
   * (1 + n t) / (1 + n), which is `t` only when `t` is 1.
   */
  lemma UniformTransportNormaliser(cs: seq<Candidate>, r: Readings, t: real)
    requires forall c <- cs :: Reading(TransportTime, c, r) == t
    requires 1.0 + |cs| as real * t != 0.0
    ensures Normaliser(cs, TransportTime, r) * (1 + |cs|) as real == 1.0 + |cs| as real * t
    ensures Normaliser(cs, TransportTime, r) == t <==> t == 1.0
  {
    SumOverConstant(cs, TransportTime, r, t);
    var n := Normaliser(cs, TransportTime, r);
    var k := (1 + |cs|) as real;
    assert n * k == 1.0 + (k - 1.0) * t;
    if n == t {
      assert t * k == 1.0 + k * t - t;
    }
  }

  // ---------------------------------------------------------------------
  // Material supply offers
  // ---------------------------------------------------------------------

  /** The first offer with the strictly smallest time (`time < minTime`, from `minTime = Infinity`). */
  function BestIndex(offers: seq<SupplyOffer>): (k: nat)
    requires offers != []
    ensures k < |offers|
  {
    if |offers| == 1 then 0
    else
      var k := BestIndex(offers[..|offers| - 1]);
      if offers[|offers| - 1].time < offers[k].time then |offers| - 1 else k
  }

  /** The chosen offer has the minimum time, and every offer before it a strictly larger one. */
  lemma {:induction false} BestIndexIsFirstMinimum(offers: seq<SupplyOffer>)
    requires offers != []
    ensures forall j | 0 <= j < |offers| :: offers[BestIndex(offers)].time <= offers[j].time
    ensures forall j | 0 <= j < BestIndex(offers) :: offers[BestIndex(offers)].time < offers[j].time
  {
    if |offers| > 1 {
      var init := offers[..|offers| - 1];
      BestIndexIsFirstMinimum(init);
      assert forall j | 0 <= j < |init| :: init[j] == offers[j];
    }
  }

  /** The `free_agvs.forEach` keeping the first AGV with the smallest supply time. */
  method SelectOffer(offers: seq<SupplyOffer>) returns (best: SupplyOffer)
    requires offers != []
    ensures best == offers[BestIndex(offers)]
  {
    var minTime: Option<real> := None;
    best := offers[0];
    ghost var k: nat := 0;
    for j := 0 to |offers|
      invariant j == 0 ==> minTime == None
      invariant j > 0 ==> k == BestIndex(offers[..j]) && minTime == Some(offers[k].time) && best == offers[k]
    {
      assert offers[..j + 1][..j] == offers[..j];
      if minTime.None? || offers[j].time < minTime.value {
        minTime := Some(offers[j].time);
        best := offers[j];
        k := j;
      }
    }
    assert offers[..|offers|] == offers;
  }

  /** Whether a candidate gets an offer: its operation needs material and some AGV is free. */
  predicate Offered(c: Candidate, r: Readings) {
    |r.offers(c)| > 0 && c.operation.materialRequired
  }

  /** `nextPossibleStations_AGVs`: per station id, the best offer of the last offered candidate at that station. */
  function OfferMap(cs: seq<Candidate>, r: Readings): map<string, SupplyOffer> {
    if cs == [] then map[]
    else
      var m := OfferMap(cs[..|cs| - 1], r);
      var c := cs[|cs| - 1];
      if Offered(c, r) then m[c.station.id := r.offers(c)[BestIndex(r.offers(c))]] else m
  }

  /** The offers map: built only when the policy manages supply. */
  function OffersFor(cs: seq<Candidate>, r: Readings): map<string, SupplyOffer> {
    if ManagesSupply(r.policy) then OfferMap(cs, r) else map[]
  }

  /** A station has an offer exactly when some offered candidate is at it. */
  lemma {:induction false} OfferMapDomain(cs: seq<Candidate>, r: Readings, id: string)
    ensures id in OfferMap(cs, r) <==> exists k | 0 <= k < |cs| :: cs[k].station.id == id && Offered(cs[k], r)
  {
    if cs != [] {
      var init := cs[..|cs| - 1];
      OfferMapDomain(init, r, id);
      assert forall k | 0 <= k < |init| :: init[k] == cs[k];
    }
  }

  /** The offer kept for a station is the best offer of the LAST offered candidate at that station. */
  lemma {:induction false} OfferMapLastWins(cs: seq<Candidate>, r: Readings, k: nat)
    requires k < |cs| && Offered(cs[k], r)
    requires forall j | k < j < |cs| :: cs[j].station.id == cs[k].station.id ==> !Offered(cs[j], r)
    ensures cs[k].station.id in OfferMap(cs, r)
    ensures OfferMap(cs, r)[cs[k].station.id] == r.offers(cs[k])[BestIndex(r.offers(cs[k]))]
  {
    var init := cs[..|cs| - 1];
    if k < |cs| - 1 {
      assert init[k] == cs[k];
      forall j | k < j < |init| ensures init[j].station.id == init[k].station.id ==> !Offered(init[j], r) {
        assert init[j] == cs[j];
      }
      OfferMapLastWins(init, r, k);
    }
  }

  /** The `jobOperations.forEach` that fills `nextPossibleStations_AGVs`. */
  method BuildOfferMap(jobOperations: seq<Candidate>, r: Readings) returns (m: map<string, SupplyOffer>)
    ensures m == OfferMap(jobOperations, r)
  {
    m := map[];
    for k := 0 to |jobOperations|
      invariant m == OfferMap(jobOperations[..k], r)
    {
      var c := jobOperations[k];
      var freeAgvs := r.offers(c);
      if |freeAgvs| > 0 && c.operation.materialRequired {
        var best := SelectOffer(freeAgvs);
        m := m[c.station.id := best];
      }
      assert jobOperations[..k + 1][..k] == jobOperations[..k];
    }
    assert jobOperations[..|jobOperations|] == jobOperations;
  }

  // ---------------------------------------------------------------------
  // Material supply time
  // ---------------------------------------------------------------------

  /** `x`, or 0 when `x` is negative. */
  function ClampAtZero(x: real): (y: real)
    ensures y >= 0.0 && y >= x && (y == 0.0 || y == x)
  {
    if x < 0.0 then 0.0 else x
  }

  /**
   * The material supply time of a candidate whose station has an offer: the
   * offer's time minus the time the job needs anyway, never negative.
   */
  function SupplyDelay(c: Candidate, m: map<string, SupplyOffer>, r: Readings): Option<real> {
    if c.station.id in m then
      Some(ClampAtZero(m[c.station.id].time - (Reading(TransportTime, c, r) + Reading(RemainingStationTime, c, r)
                                                 + Reading(QueuedOperationsDuration, c, r))))
    else None
  }

  /**
   * The controlled-supply normalisation values: `materialSupplyTime` is
   * declared outside the loop, so a candidate without an offer repeats the
   * previous candidate's value.
   */
  function CarriedDelays(cs: seq<Candidate>, m: map<string, SupplyOffer>, r: Readings): (ds: seq<real>)
    ensures |ds| == |cs|
  {
    if cs == [] then []
    else
      var prev := CarriedDelays(cs[..|cs| - 1], m, r);
      prev + [SupplyDelay(cs[|cs| - 1], m, r).GetOr(if prev == [] then 0.0 else prev[|prev| - 1])]
  }

  /** The predictive-supply normalisation values: an unoffered candidate counts 0. */
  function ResetDelays(cs: seq<Candidate>, m: map<string, SupplyOffer>, r: Readings): (ds: seq<real>)
    ensures |ds| == |cs|
  {
    if cs == [] then [] else ResetDelays(cs[..|cs| - 1], m, r) + [SupplyDelay(cs[|cs| - 1], m, r).GetOr(0.0)]
  }

  function Total(xs: seq<real>): real {
    if xs == [] then 0.0 else Total(xs[..|xs| - 1]) + xs[|xs| - 1]
  }

  /** Carrying the last value never lowers a supply time below the reset one, and both are non-negative. */
  lemma {:induction false} CarriedDominatesReset(cs: seq<Candidate>, m: map<string, SupplyOffer>, r: Readings)
    ensures forall k | 0 <= k < |cs| :: CarriedDelays(cs, m, r)[k] >= ResetDelays(cs, m, r)[k] >= 0.0
  {
    if cs != [] {
      CarriedDominatesReset(cs[..|cs| - 1], m, r);
    }
  }

  lemma {:induction false} TotalMonotone(xs: seq<real>, ys: seq<real>)
    requires |xs| == |ys| && forall k | 0 <= k < |xs| :: xs[k] >= ys[k]
    ensures Total(xs) >= Total(ys)
  {
    if xs != [] {
      TotalMonotone(xs[..|xs| - 1], ys[..|ys| - 1]);
    }
  }

  /** The `nMS` normaliser of each policy (1 when supply is not managed). */
  function SupplyNormaliser(cs: seq<Candidate>, m: map<string, SupplyOffer>, r: Readings): (n: real)
    ensures n != 0.0
  {
    match r.policy
    case Controlled => Mean(Total(CarriedDelays(cs, m, r)), |cs|)
    case Predictive => Mean(Total(ResetDelays(cs, m, r)), |cs|)
    case _ => 1.0
  }

  /** Controlled supply's carried values sum to at least predictive supply's reset ones. */
  lemma CarriedTotalAtLeastReset(cs: seq<Candidate>, m: map<string, SupplyOffer>, r: Readings)
    ensures Total(CarriedDelays(cs, m, r)) >= Total(ResetDelays(cs, m, r)) >= 0.0
  {
    CarriedDominatesReset(cs, m, r);
    TotalMonotone(CarriedDelays(cs, m, r), ResetDelays(cs, m, r));
    TotalMonotone(ResetDelays(cs, m, r), seq(|cs|, _ => 0.0));
    ZeroTotal(|cs|);
  }

  lemma {:induction false} ZeroTotal(n: nat)
    ensures Total(seq(n, _ => 0.0)) == 0.0
  {
    if n > 0 {
      ZeroTotal(n - 1);
      assert seq(n, _ => 0.0)[..n - 1] == seq(n - 1, _ => 0.0);
    }
  }

  /** The controlled-supply normalisation loop: `materialSupplyTime` lives across iterations. */
  method ControlledSupplyTotal(jobOperations: seq<Candidate>, m: map<string, SupplyOffer>, r: Readings)
    returns (allMS: real)
    ensures allMS == Total(CarriedDelays(jobOperations, m, r))
  {
    ghost var ds := CarriedDelays(jobOperations, m, r);
    allMS := 0.0;
    var materialSupplyTime := 0.0;
    for k := 0 to |jobOperations|
      invariant allMS == Total(ds[..k])
      invariant materialSupplyTime == if k == 0 then 0.0 else ds[k - 1]
    {
      var c := jobOperations[k];
      CarriedAt(jobOperations, k, m, r);
      var offered := MaterialSupplyTime(c, m, r);
      if offered.Some? {
        materialSupplyTime := offered.value;
      }
      TotalSnoc(ds, k);
      allMS := allMS + materialSupplyTime;
    }
    assert ds[..|ds|] == ds;
  }

  /** The supply time of one candidate, when its station has an offer. */
  method MaterialSupplyTime(c: Candidate, m: map<string, SupplyOffer>, r: Readings) returns (t: Option<real>)
    ensures t == SupplyDelay(c, m, r)
  {
    t := None;
    if c.station.id in m {
      var materialSupplyTime := m[c.station.id].time - (r.transport(c.station) + RemainingStationTimeOf(c.station, r.now)
                                                         + QueuedDuration(c.station.queuedJobOperations));
      if materialSupplyTime < 0.0 {
        materialSupplyTime := 0.0;
      }
      t := Some(materialSupplyTime);
    }
  }

  /** A controlled candidate's value is its own delay, or else the one carried from its predecessor. */
  lemma {:induction false} CarriedAt(cs: seq<Candidate>, k: nat, m: map<string, SupplyOffer>, r: Readings)
    requires k < |cs|
    ensures CarriedDelays(cs, m, r)[k] == SupplyDelay(cs[k], m, r).GetOr(if k == 0 then 0.0 else CarriedDelays(cs, m, r)[k - 1])
  {
    var n := |cs| - 1;
    var prev := CarriedDelays(cs[..n], m, r);
    assert CarriedDelays(cs, m, r) == prev + [SupplyDelay(cs[n], m, r).GetOr(if prev == [] then 0.0 else prev[n - 1])];
    if k < n {
      CarriedAt(cs[..n], k, m, r);
      assert cs[..n][k] == cs[k];
    }
  }

  /** A total over one more element. */
  lemma TotalSnoc(xs: seq<real>, k: nat)
    requires k < |xs|
    ensures Total(xs[..k + 1]) == Total(xs[..k]) + xs[k]
  {
    assert xs[..k + 1][..k] == xs[..k];
  }

  /** A predictive candidate's value is its own delay, or 0 without an offer. */
  lemma {:induction false} ResetAt(cs: seq<Candidate>, k: nat, m: map<string, SupplyOffer>, r: Readings)
    requires k < |cs|
    ensures ResetDelays(cs, m, r)[k] == SupplyDelay(cs[k], m, r).GetOr(0.0)
  {
    var n := |cs| - 1;
    if k < n {
      ResetAt(cs[..n], k, m, r);
      assert cs[..n][k] == cs[k];
    }
  }

  /** The predictive-supply normalisation loop: `materialSupplyTime` starts at 0 for each candidate. */
  method PredictiveSupplyTotal(jobOperations: seq<Candidate>, m: map<string, SupplyOffer>, r: Readings)
    returns (allMS: real)
    ensures allMS == Total(ResetDelays(jobOperations, m, r))
  {
    ghost var ds := ResetDelays(jobOperations, m, r);
    allMS := 0.0;
    for k := 0 to |jobOperations|
      invariant allMS == Total(ds[..k])
    {
      var c := jobOperations[k];
      var materialSupplyTime := 0.0;
      var offered := MaterialSupplyTime(c, m, r);
      if offered.Some? {
        materialSupplyTime := offered.value;
      }
      ResetAt(jobOperations, k, m, r);
      TotalSnoc(ds, k);
      allMS := allMS + materialSupplyTime;
    }
    assert ds[..|ds|] == ds;
  }

  // ---------------------------------------------------------------------
  // Scores and selection
  // ---------------------------------------------------------------------

  /** A score `1 / d`; a zero denominator gives JavaScript's `Infinity`. */
  datatype Score = Finite(value: real) | Infinite

  /** The score order, with `Infinite` above every finite score. */
  predicate Below(a: Score, b: Score) {
    match (a, b)
    case (Finite(x), Finite(y)) => x < y
    case (Finite(_), Infinite) => true
    case (Infinite, _) => false
  }

  function Reciprocal(d: real): (s: Score)
    ensures s.Infinite? <==> d == 0.0
    ensures s.Finite? ==> s.value * d == 1.0
  {
    if d == 0.0 then Infinite else Finite(1.0 / d)
  }

  /** The five normalisers (all non-zero). */
  datatype Normalisers = Normalisers(tt: real, pt: real, rst: real, qod: real, ms: real)

  predicate NonZero(n: Normalisers) {
    n.tt != 0.0 && n.pt != 0.0 && n.rst != 0.0 && n.qod != 0.0 && n.ms != 0.0
  }

  function NormalisersFor(cs: seq<Candidate>, m: map<string, SupplyOffer>, r: Readings): (n: Normalisers)
    ensures NonZero(n)
  {
    Normalisers(Normaliser(cs, TransportTime, r), Normaliser(cs, ProcessingTime, r),
                Normaliser(cs, RemainingStationTime, r), Normaliser(cs, QueuedOperationsDuration, r),
                SupplyNormaliser(cs, m, r))
  }

  /** The weighted sum of normalised readings; it has the supply term only when supply is managed. */
  function Denominator(c: Candidate, n: Normalisers, m: map<string, SupplyOffer>, r: Readings): real
    requires NonZero(n)
  {
    var s := r.strategy;
    var common := s.pA * (Reading(TransportTime, c, r) / n.tt) + s.pB * (Reading(ProcessingTime, c, r) / n.pt)
                  + (s.pC / n.rst) * Reading(RemainingStationTime, c, r)
                  + s.pD * (Reading(QueuedOperationsDuration, c, r) / n.qod);
    if ManagesSupply(r.policy) then s.pG * (SupplyDelay(c, m, r).GetOr(0.0) / n.ms) + common else common
  }

  function ScoreOf(c: Candidate, n: Normalisers, m: map<string, SupplyOffer>, r: Readings): Score
    requires NonZero(n)
  {
    Reciprocal(Denominator(c, n, m, r))
  }

  function Scores(cs: seq<Candidate>, n: Normalisers, m: map<string, SupplyOffer>, r: Readings): (ss: seq<Score>)
    requires NonZero(n)
    ensures |ss| == |cs|
    ensures forall k | 0 <= k < |cs| :: ss[k] == ScoreOf(cs[k], n, m, r)
  {
    if cs == [] then [] else Scores(cs[..|cs| - 1], n, m, r) + [ScoreOf(cs[|cs| - 1], n, m, r)]
  }

  /** Without managed supply the offers do not affect any score. */
  lemma ScoreIgnoresOffersWithoutManagedSupply(c: Candidate, n: Normalisers, m1: map<string, SupplyOffer>,
                                               m2: map<string, SupplyOffer>, r: Readings)
    requires NonZero(n) && !ManagesSupply(r.policy)
    ensures ScoreOf(c, n, m1, r) == ScoreOf(c, n, m2, r)
  {
  }

  /** `scores.indexOf(Math.max(...scores))`: the first index reaching the maximum, none for no scores. */
  function FirstMaxIndex(scores: seq<Score>): (k: Option<nat>)
    ensures k.Some? <==> scores != []
    ensures k.Some? ==> k.value < |scores|
  {
    if scores == [] then None
    else if |scores| == 1 then Some(0)
    else
      var k := FirstMaxIndex(scores[..|scores| - 1]).value;
      if Below(scores[k], scores[|scores| - 1]) then Some(|scores| - 1) else Some(k)
  }

  /** The selected score is a maximum, and every earlier score is strictly below it. */
  lemma {:induction false} FirstMaxIndexIsFirstMaximum(scores: seq<Score>)
    requires scores != []
    ensures var k := FirstMaxIndex(scores).value;
      && (forall j | 0 <= j < |scores| :: !Below(scores[k], scores[j]))
      && (forall j | 0 <= j < k :: Below(scores[j], scores[k]))
  {
    if |scores| > 1 {
      var init := scores[..|scores| - 1];
      FirstMaxIndexIsFirstMaximum(init);
      assert forall j | 0 <= j < |init| :: init[j] == scores[j];
    }
  }

  /** The body of the score loop: one candidate's score. */
  method ScoreCandidate(c: Candidate, n: Normalisers, m: map<string, SupplyOffer>, r: Readings) returns (score: Score)
    requires NonZero(n)
    ensures score == ScoreOf(c, n, m, r)
  {
    var s := r.strategy;
    var transportationTime := r.transport(c.station);
    var processingTime := c.operation.processingTime;
    var remainingStationTime := RemainingStationTimeOf(c.station, r.now);
    var queuedOperationsDuration := SumQueuedDuration(c.station.queuedJobOperations);
    var denominator := s.pA * (transportationTime / n.tt) + s.pB * (processingTime / n.pt)
                       + (s.pC / n.rst) * remainingStationTime + s.pD * (queuedOperationsDuration / n.qod);
    if r.policy == Controlled || r.policy == Predictive {
      var materialSupplyTime := 0.0;
      var offered := MaterialSupplyTime(c, m, r);
      if offered.Some? {
        materialSupplyTime := offered.value;
      }
      denominator := s.pG * (materialSupplyTime / n.ms) + denominator;
    }
    assert denominator == Denominator(c, n, m, r);
    score := if denominator == 0.0 then Infinite else Finite(1.0 / denominator);
  }

  /** The loop that pushes one score per candidate. */
  method ScoreCandidates(jobOperations: seq<Candidate>, n: Normalisers, m: map<string, SupplyOffer>, r: Readings)
    returns (scores: seq<Score>)
    requires NonZero(n)
    ensures scores == Scores(jobOperations, n, m, r)
  {
    scores := [];
    for k := 0 to |jobOperations|
      invariant scores == Scores(jobOperations[..k], n, m, r)
    {
      var score := ScoreCandidate(jobOperations[k], n, m, r);
      scores := scores + [score];
      assert jobOperations[..k + 1][..k] == jobOperations[..k];
    }
    assert jobOperations[..|jobOperations|] == jobOperations;
  }

  // ---------------------------------------------------------------------
  // The plan
  // ---------------------------------------------------------------------

  /**
   * What happens to material supply once a pair is planned: reserve the
   * offered AGV (status MOVING, `plannedAGVStationWarehouse` set), queue
   * the job for a later AGV (`materialJobExecutionQueue`), mark the
   * material as arrived because none is needed, or nothing.
   */
  datatype SupplyAction = NoAction | Reserve(offer: SupplyOffer) | AwaitAgv | MaterialReady

  /** The outcome of `findNextStation`: the planned pair, the job's transport time, and the supply action. */
  datatype Plan = Plan(planned: Option<Candidate>, transportTime: real, supply: SupplyAction)

  function SupplyFor(planned: Option<Candidate>, m: map<string, SupplyOffer>, r: Readings): SupplyAction {
    if !ManagesSupply(r.policy) || planned.None? then NoAction
    else if planned.value.operation.materialRequired then
      (if planned.value.station.id in m then Reserve(m[planned.value.station.id]) else AwaitAgv)
    else MaterialReady
  }

  /** `transportTimeCalc`: the router's duration to the planned station, 0 without a plan. */
  function TransportTimeFor(planned: Option<Candidate>, r: Readings): real {
    if planned.Some? then r.transport(planned.value.station) else 0.0
  }

  /** The plan `findNextStation` makes for the given next operations. */
  function PlanFor(nextOperations: seq<Operation>, capable: Operation -> seq<Station>, r: Readings): Plan {
    var cs := Candidates(nextOperations, capable);
    var m := OffersFor(cs, r);
    var n := NormalisersFor(cs, m, r);
    var pick := FirstMaxIndex(Scores(cs, n, m, r));
    var planned := if pick.Some? then Some(cs[pick.value]) else None;
    Plan(planned, TransportTimeFor(planned, r), SupplyFor(planned, m, r))
  }

  /**
   * There is a plan exactly when there is a candidate; the planned pair is
   * the first candidate whose score is a maximum.
   */
  lemma PlanIsFirstBest(nextOperations: seq<Operation>, capable: Operation -> seq<Station>, r: Readings)
    ensures var cs := Candidates(nextOperations, capable);
      var m := OffersFor(cs, r);
      var n := NormalisersFor(cs, m, r);
      var plan := PlanFor(nextOperations, capable, r);
      && (plan.planned.None? <==> cs == [])
      && (plan.planned.Some? ==>
            exists k | 0 <= k < |cs| ::
              && plan.planned.value == cs[k]
              && (forall j | 0 <= j < |cs| :: !Below(ScoreOf(cs[k], n, m, r), ScoreOf(cs[j], n, m, r)))
              && (forall j | 0 <= j < k :: Below(ScoreOf(cs[j], n, m, r), ScoreOf(cs[k], n, m, r))))
  {
    var cs := Candidates(nextOperations, capable);
    var m := OffersFor(cs, r);
    var n := NormalisersFor(cs, m, r);
    var ss := Scores(cs, n, m, r);
    if cs != [] {
      FirstMaxIndexIsFirstMaximum(ss);
      var k := FirstMaxIndex(ss).value;
      assert PlanFor(nextOperations, capable, r).planned.value == cs[k];
    }
  }

  /**
   * An AGV is reserved only under managed supply, for a planned operation
   * that needs material, at a station that has an offer; and that is then
   * the offer kept for the station.
   */
  lemma ReserveOnlyWithOffer(nextOperations: seq<Operation>, capable: Operation -> seq<Station>, r: Readings)
    ensures var plan := PlanFor(nextOperations, capable, r);
      var m := OfferMap(Candidates(nextOperations, capable), r);
      plan.supply.Reserve? <==>
        && ManagesSupply(r.policy) && plan.planned.Some? && plan.planned.value.operation.materialRequired
        && plan.planned.value.station.id in m && plan.supply.offer == m[plan.planned.value.station.id]
  {
  }

  /** The normalisation part of `findNextStation`, with the offers map it builds under managed supply. */
  method Normalise(jobOperations: seq<Candidate>, r: Readings) returns (n: Normalisers, offers: map<string, SupplyOffer>)
    ensures offers == OffersFor(jobOperations, r)
    ensures n == NormalisersFor(jobOperations, offers, r)
  {
    var count := |jobOperations|;
    var allTT := SumReadings(jobOperations, TransportTime, r);
    allTT := 1.0 + allTT;
    var nTT := if allTT == 0.0 then 1.0 else allTT / (1 + count) as real;
    assert nTT == Normaliser(jobOperations, TransportTime, r);
    var allPT := SumReadings(jobOperations, ProcessingTime, r);
    var nPT := if allPT == 0.0 then 1.0 else allPT / count as real;
    assert nPT == Normaliser(jobOperations, ProcessingTime, r);
    var allRST := SumReadings(jobOperations, RemainingStationTime, r);
    var nRST := if allRST == 0.0 then 1.0 else allRST / count as real;
    assert nRST == Normaliser(jobOperations, RemainingStationTime, r);
    var allQOD := SumReadings(jobOperations, QueuedOperationsDuration, r);
    var nQOD := if allQOD == 0.0 then 1.0 else allQOD / count as real;
    assert nQOD == Normaliser(jobOperations, QueuedOperationsDuration, r);
    var nMS := 1.0;
    offers := map[];
    if r.policy == Controlled {
      offers := BuildOfferMap(jobOperations, r);
      var allMS := ControlledSupplyTotal(jobOperations, offers, r);
      nMS := if allMS == 0.0 then 1.0 else allMS / count as real;
    } else if r.policy == Predictive {
      offers := BuildOfferMap(jobOperations, r);
      var allMS := PredictiveSupplyTotal(jobOperations, offers, r);
      nMS := if allMS == 0.0 then 1.0 else allMS / count as real;
    }
    n := Normalisers(nTT, nPT, nRST, nQOD, nMS);
  }

  /** The full `findNextStation` computation. */
  method FindNextStation(nextOperations: seq<Operation>, capable: Operation -> seq<Station>, r: Readings)
    returns (plan: Plan)
    ensures plan == PlanFor(nextOperations, capable, r)
  {
    var jobOperations := EnumerateCandidates(nextOperations, capable);
    var n, offers := Normalise(jobOperations, r);
    var scores := ScoreCandidates(jobOperations, n, offers, r);
    var pick := FirstMaxIndex(scores);
    var planned := if pick.Some? then Some(jobOperations[pick.value]) else None;
    var transportTime := if planned.Some? then r.transport(planned.value.station) else 0.0;
    var supply := NoAction;
    if r.policy == Controlled || r.policy == Predictive {
      if planned.Some? && planned.value.operation.materialRequired {
        if planned.value.station.id in offers {
          supply := Reserve(offers[planned.value.station.id]);
        } else {
          supply := AwaitAgv;
        }
      } else if planned.Some? {
        supply := MaterialReady;
      }
    }
    plan := Plan(planned, transportTime, supply);
  }
}
