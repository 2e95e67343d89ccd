/** Candidate ranking and the eviction prefix of model_scheduler/eviction_policy.py, and what
    evicting a chosen prefix does to the admission test of the book. */
module EvictionPolicy {
  import opened Prelude
  import opened BookModel
  import opened BookRuns
  import BookObject

  datatype Candidate = Candidate(modelId: ModelId, reserved: nat, heat: real, priority: int, score: real)

  /** Lower score first; the model id breaks ties. */
  predicate Before(x: Candidate, y: Candidate) {
    x.score < y.score || (x.score == y.score && x.modelId.n < y.modelId.n)
  }

  predicate Ordered(cs: seq<Candidate>) {
    forall i, j :: 0 <= i < j < |cs| ==> Before(cs[i], cs[j])
  }

  predicate Eligible(b: BookState, m: ModelId, includeBusy: bool) {
    && m in b.runtime && m in b.policy.ledger
    && b.runtime[m].state.Ready?
    && (b.runtime[m].leases == map[] || includeBusy)
    && !b.runtime[m].admissionBlocked
    && !b.policy.ledger[m].pinned && b.policy.ledger[m].evictable
  }

  /** Heat is whatever the decayed usage figure is at this instant. */
  function CandidateFor(p: Policy, heat: map<ModelId, real>, m: ModelId): (c: Candidate)
    requires m in p.ledger && p.ledger[m].reserved > 0
  {
    var spec := p.ledger[m];
    var h := if m in heat then heat[m] else 0.0;
    Candidate(m, spec.reserved, h, spec.priority, (h + spec.priority as real) / spec.reserved as real)
  }

  /** `candidates`: exactly the eligible models, each once, in score order. */
  ghost predicate IsRanking(b: BookState, heat: map<ModelId, real>, includeBusy: bool, cs: seq<Candidate>)
  {
    && PolicyOk(b.policy)
    && Ordered(cs)
    && (forall c :: c in cs ==> Eligible(b, c.modelId, includeBusy) && c == CandidateFor(b.policy, heat, c.modelId))
    && (forall m :: Eligible(b, m, includeBusy) ==> CandidateFor(b.policy, heat, m) in cs)
  }

  /** There is only one such list: the choice depends on nothing but the book and the heat. */
  lemma RankingIsUnique(b: BookState, heat: map<ModelId, real>, includeBusy: bool, cs: seq<Candidate>,
                        ds: seq<Candidate>)
    requires IsRanking(b, heat, includeBusy, cs) && IsRanking(b, heat, includeBusy, ds)
    ensures cs == ds
  {
    SameMembersSameOrder(cs, ds);
  }

  lemma {:induction false} SameMembersSameOrder(cs: seq<Candidate>, ds: seq<Candidate>)
    requires Ordered(cs) && Ordered(ds)
    requires forall c :: c in cs <==> c in ds
    ensures cs == ds
  {
    assert ds != [] ==> ds[0] in ds;
    assert cs != [] ==> cs[0] in cs;
    if cs != [] {
      assert cs[0] in ds;
      assert ds[0] in cs;
      assert cs[0] == ds[0];
      var cs', ds' := cs[1..], ds[1..];
      forall c
        ensures c in cs' <==> c in ds'
      {
        assert c in cs' ==> c in cs && c != cs[0];
        assert c in ds' ==> c in ds && c != ds[0];
        assert c in cs && c != cs[0] ==> c in cs';
        assert c in ds && c != ds[0] ==> c in ds';
      }
      SameMembersSameOrder(cs', ds');
      assert cs == [cs[0]] + cs' && ds == [ds[0]] + ds';
    }
  }

  // ---- what the ranking prefers ----------------------------------------------------------

  /** What a model is worth keeping for: its heat, nothing if it was never used, and its priority. */
  function Worth(p: Policy, heat: map<ModelId, real>, m: ModelId): (v: real)
    requires m in p.ledger
  {
    (if m in heat then heat[m] else 0.0) + p.ledger[m].priority as real
  }

  lemma CrossMultiply(a: real, b: real, c: real, d: real)
    requires b > 0.0 && d > 0.0
    ensures a / b < c / d <==> a * d < c * b
    ensures a / b == c / d <==> a * d == c * b
  {
    var x, y := a / b, c / d;
    assert a == x * b && c == y * d;
    assert a * d == x * (b * d) && c * b == y * (b * d);
    assert b * d > 0.0;
    if x < y { assert (y - x) * (b * d) > 0.0; }
    if x > y { assert (x - y) * (b * d) > 0.0; }
  }

  /** Exactly the models that are ready, open, not pinned, evictable and, unless busy ones count, idle
      are listed, each with the bytes its eviction gives back. */
  lemma ListedIff(b: BookState, heat: map<ModelId, real>, includeBusy: bool, cs: seq<Candidate>, m: ModelId)
    requires IsRanking(b, heat, includeBusy, cs)
    ensures (exists k :: 0 <= k < |cs| && cs[k].modelId == m) <==>
              && m in b.runtime && m in b.policy.ledger && b.runtime[m].state.Ready? && !b.runtime[m].admissionBlocked
              && (includeBusy || b.runtime[m].leases == map[])
              && b.policy.ledger[m].evictable && !b.policy.ledger[m].pinned
    ensures forall k :: 0 <= k < |cs| && cs[k].modelId == m ==>
              m in b.policy.ledger && cs[k].reserved == b.policy.ledger[m].reserved
  {
    if Eligible(b, m, includeBusy) {
      assert CandidateFor(b.policy, heat, m) in cs;
      var k :| 0 <= k < |cs| && cs[k] == CandidateFor(b.policy, heat, m);
      assert cs[k].modelId == m;
    }
    forall k | 0 <= k < |cs| && cs[k].modelId == m
      ensures Eligible(b, m, includeBusy) && cs[k].reserved == b.policy.ledger[m].reserved
    {
      assert cs[k] in cs;
    }
  }

  /** The order on the figures: whoever comes earlier is worth less per reserved byte, or the same with
      the smaller id. */
  lemma EarlierIsWorthLess(b: BookState, heat: map<ModelId, real>, includeBusy: bool, cs: seq<Candidate>, i: nat,
                           j: nat)
    requires IsRanking(b, heat, includeBusy, cs) && i < j < |cs|
    ensures cs[i].modelId in b.policy.ledger && cs[j].modelId in b.policy.ledger
    ensures var x, y := cs[i].modelId, cs[j].modelId;
            var vx, vy := Worth(b.policy, heat, x), Worth(b.policy, heat, y);
            var rx, ry := b.policy.ledger[x].reserved as real, b.policy.ledger[y].reserved as real;
            vx * ry < vy * rx || (vx * ry == vy * rx && x.n < y.n)
  {
    assert cs[i] in cs && cs[j] in cs && Before(cs[i], cs[j]);
    var x, y := cs[i].modelId, cs[j].modelId;
    CrossMultiply(Worth(b.policy, heat, x), b.policy.ledger[x].reserved as real,
                  Worth(b.policy, heat, y), b.policy.ledger[y].reserved as real);
  }

  /** The policy is said to prefer the larger release. Between two candidates of the same worth it does
      so if and only if that worth is positive: of two models that were never used and have priority
      zero the smaller id goes first, however little it gives back. */
  lemma LargerReleaseFirstIff(b: BookState, heat: map<ModelId, real>, includeBusy: bool, cs: seq<Candidate>, i: nat,
                              j: nat)
    requires IsRanking(b, heat, includeBusy, cs) && i < |cs| && j < |cs| && cs[i].reserved > cs[j].reserved
    requires cs[i].modelId in b.policy.ledger && cs[j].modelId in b.policy.ledger
    requires Worth(b.policy, heat, cs[i].modelId) == Worth(b.policy, heat, cs[j].modelId)
    ensures var v := Worth(b.policy, heat, cs[i].modelId);
            i < j <==> v > 0.0 || (v == 0.0 && cs[i].modelId.n < cs[j].modelId.n)
  {
    var ri, rj := cs[i].reserved as real, cs[j].reserved as real;
    ListedIff(b, heat, includeBusy, cs, cs[i].modelId);
    ListedIff(b, heat, includeBusy, cs, cs[j].modelId);
    if i < j { EarlierIsWorthLess(b, heat, includeBusy, cs, i, j); }
    if j < i { EarlierIsWorthLess(b, heat, includeBusy, cs, j, i); }
    SameWorth(Worth(b.policy, heat, cs[i].modelId), ri, rj);
    hide IsRanking, Worth;
  }

  lemma SameWorth(v: real, r: real, s: real)
    requires r > s
    ensures v * s < v * r <==> v > 0.0
    ensures v * s == v * r <==> v == 0.0
  {
    assert v * r - v * s == v * (r - s);
    if v > 0.0 { assert v * (r - s) > 0.0; }
    if v < 0.0 { assert v * (r - s) < 0.0; }
  }

  function Released(cs: seq<Candidate>): (total: nat) {
    if cs == [] then 0 else Released(cs[..|cs| - 1]) + cs[|cs| - 1].reserved
  }

  /** The answer of `choose`: the shortest prefix of the ranking that releases enough, within the
      eviction limit; nothing at all exactly when nothing is needed or no allowed prefix is enough. */
  ghost predicate IsChoice(ranking: seq<Candidate>, needed: int, maxEvictions: nat, chosen: seq<Candidate>) {
    && (chosen != [] ==>
          && needed > 0
          && |chosen| <= maxEvictions && chosen <= ranking
          && Released(chosen) >= needed
          && Released(chosen[..|chosen| - 1]) < needed)
    && (chosen == [] ==>
          needed <= 0 || forall k :: 0 <= k <= |ranking| && k <= maxEvictions ==> Released(ranking[..k]) < needed)
  }

  lemma {:induction false} ReleasedGrows(cs: seq<Candidate>, i: nat, j: nat)
    requires i <= j <= |cs|
    ensures Released(cs[..i]) <= Released(cs[..j])
    decreases j
  {
    if i < j {
      ReleasedGrows(cs, i, j - 1);
      assert cs[..j][..j - 1] == cs[..j - 1];
    }
  }

  /** The rule leaves no freedom: one ranking, one need and one limit have one answer. */
  lemma ChoiceIsUnique(ranking: seq<Candidate>, needed: int, maxEvictions: nat, a: seq<Candidate>, b: seq<Candidate>)
    requires IsChoice(ranking, needed, maxEvictions, a) && IsChoice(ranking, needed, maxEvictions, b)
    ensures a == b
  {
    assert a == ranking[..|a|] && b == ranking[..|b|];
    if |a| < |b| {
      ShorterFallsShort(ranking, needed, maxEvictions, a, b);
    } else if |b| < |a| {
      ShorterFallsShort(ranking, needed, maxEvictions, b, a);
    }
  }

  lemma ShorterFallsShort(ranking: seq<Candidate>, needed: int, maxEvictions: nat, a: seq<Candidate>, b: seq<Candidate>)
    requires |a| < |b| <= |ranking| && a == ranking[..|a|] && b == ranking[..|b|]
    requires IsChoice(ranking, needed, maxEvictions, b)
    ensures !IsChoice(ranking, needed, maxEvictions, a)
  {
    ReleasedGrows(ranking, |a|, |b| - 1);
    assert b[..|b| - 1] == ranking[..|b| - 1];
    assert Released(ranking[..|a|]) < needed <= Released(ranking[..|b|]);
  }

  // ---- the loops of the source -----------------------------------------------------------

  lemma InsertedInOrder(sorted: seq<Candidate>, i: nat, c: Candidate)
    requires Ordered(sorted) && i <= |sorted|
    requires forall k :: 0 <= k < i ==> Before(sorted[k], c)
    requires forall k :: i <= k < |sorted| ==> Before(c, sorted[k])
    ensures Ordered(sorted[..i] + [c] + sorted[i..])
  {
    var r := sorted[..i] + [c] + sorted[i..];
    assert forall k :: 0 <= k < |r| ==> r[k] == if k < i then sorted[k] else if k == i then c else sorted[k - 1];
    hide Before;
  }

  lemma InsertedMembers(sorted: seq<Candidate>, i: nat, c: Candidate)
    requires i <= |sorted|
    ensures forall d :: d in sorted[..i] + [c] + sorted[i..] <==> d in sorted || d == c
  {
    assert sorted == sorted[..i] + sorted[i..];
  }

  lemma LaterComesAfter(sorted: seq<Candidate>, i: nat, c: Candidate, k: nat)
    requires Ordered(sorted) && i <= k < |sorted| && !Before(sorted[i], c)
    requires forall j :: 0 <= j < |sorted| ==> sorted[j].modelId != c.modelId
    ensures Before(c, sorted[k])
  {
    assert i < k ==> Before(sorted[i], sorted[k]);
  }

  method InsertInOrder(sorted: seq<Candidate>, c: Candidate) returns (result: seq<Candidate>)
    requires Ordered(sorted)
    requires forall d :: d in sorted ==> d.modelId != c.modelId
    ensures Ordered(result)
    ensures forall d :: d in result <==> d in sorted || d == c
  {
    var i := 0;
    while i < |sorted| && Before(sorted[i], c)
      invariant 0 <= i <= |sorted|
      invariant forall k :: 0 <= k < i ==> Before(sorted[k], c)
    {
      i := i + 1;
    }
    result := sorted[..i] + [c] + sorted[i..];
    assert forall k :: 0 <= k < |sorted| ==> sorted[k] in sorted && sorted[k].modelId != c.modelId;
    forall k | i <= k < |sorted| ensures Before(c, sorted[k]) { LaterComesAfter(sorted, i, c, k); }
    InsertedInOrder(sorted, i, c);
    InsertedMembers(sorted, i, c);
  }

  /** The test of `candidates` reads `pinned` and `evictable` off the raw registration, after the
      three tests on the runtime. A v2 registration has no such attributes. */
  predicate Trips(b: BookState, m: ModelId, includeBusy: bool) {
    && m in b.runtime && m in b.policy.ledger
    && b.policy.ledger[m].registration.RegisteredV2?
    && b.runtime[m].state.Ready?
    && (b.runtime[m].leases == map[] || includeBusy)
    && !b.runtime[m].admissionBlocked
  }

  predicate AnyTrips(b: BookState, includeBusy: bool) {
    exists m :: m in b.runtime && Trips(b, m, includeBusy)
  }

  /** The loop of `candidates` after the first `i` models. */
  ghost predicate Ranked(b: BookState, heat: map<ModelId, real>, includeBusy: bool, order: seq<ModelId>, i: nat,
                         cs: seq<Candidate>) {
    && PolicyOk(b.policy) && i <= |order| && Distinct(order) && Ordered(cs)
    && (forall k :: 0 <= k < i ==> !Trips(b, order[k], includeBusy))
    && (forall c :: c in cs ==>
          && c.modelId in order[..i] && Eligible(b, c.modelId, includeBusy)
          && c == CandidateFor(b.policy, heat, c.modelId))
    && (forall k :: 0 <= k < i && Eligible(b, order[k], includeBusy) ==> CandidateFor(b.policy, heat, order[k]) in cs)
  }

  lemma NoneRanked(b: BookState, heat: map<ModelId, real>, includeBusy: bool, order: seq<ModelId>)
    requires PolicyOk(b.policy) && Distinct(order)
    ensures Ranked(b, heat, includeBusy, order, 0, [])
  {
  }

  lemma OneTrips(b: BookState, m: ModelId, includeBusy: bool)
    requires Trips(b, m, includeBusy)
    ensures AnyTrips(b, includeBusy)
  {
  }

  lemma RankedNext(b: BookState, heat: map<ModelId, real>, includeBusy: bool, order: seq<ModelId>, i: nat,
                   cs: seq<Candidate>)
    requires Ranked(b, heat, includeBusy, order, i, cs) && i < |order| && order[i] in b.policy.ledger
    ensures b.policy.ledger[order[i]].reserved > 0 && Ordered(cs)
    ensures forall d :: d in cs ==> d.modelId != CandidateFor(b.policy, heat, order[i]).modelId
  {
  }

  lemma RankedWith(b: BookState, heat: map<ModelId, real>, includeBusy: bool, order: seq<ModelId>, i: nat,
                   cs: seq<Candidate>, cs': seq<Candidate>)
    requires Ranked(b, heat, includeBusy, order, i, cs) && i < |order| && Eligible(b, order[i], includeBusy)
    requires !Trips(b, order[i], includeBusy)
    requires Ordered(cs') && b.policy.ledger[order[i]].reserved > 0
    requires forall d :: d in cs' <==> d in cs || d == CandidateFor(b.policy, heat, order[i])
    ensures Ranked(b, heat, includeBusy, order, i + 1, cs')
  {
    assert order[..i + 1] == order[..i] + [order[i]];
  }

  lemma RankedWithout(b: BookState, heat: map<ModelId, real>, includeBusy: bool, order: seq<ModelId>, i: nat,
                      cs: seq<Candidate>)
    requires Ranked(b, heat, includeBusy, order, i, cs) && i < |order| && !Eligible(b, order[i], includeBusy)
    requires !Trips(b, order[i], includeBusy)
    ensures Ranked(b, heat, includeBusy, order, i + 1, cs)
  {
    assert order[..i + 1] == order[..i] + [order[i]];
  }

  lemma RankedAll(b: BookState, heat: map<ModelId, real>, includeBusy: bool, order: seq<ModelId>, cs: seq<Candidate>)
    requires Ranked(b, heat, includeBusy, order, |order|, cs) && forall m :: m in b.runtime ==> m in order
    ensures IsRanking(b, heat, includeBusy, cs) && !AnyTrips(b, includeBusy)
  {
  }

  datatype Verdict = Raise | Skip | Take

  /** The condition of `candidates`, in its order of evaluation. */
  function Judge(r: Runtime, spec: LedgerSpec, includeBusy: bool): (v: Verdict) {
    if !r.state.Ready? || (r.leases != map[] && !includeBusy) || r.admissionBlocked then Skip
    else if spec.registration.RegisteredV2? then Raise
    else if spec.pinned || !spec.evictable then Skip
    else Take
  }

  lemma Judged(b: BookState, m: ModelId, includeBusy: bool)
    requires m in b.runtime && m in b.policy.ledger
    ensures var v := Judge(b.runtime[m], b.policy.ledger[m], includeBusy);
            && (v.Raise? <==> Trips(b, m, includeBusy))
            && (v.Take? ==> Eligible(b, m, includeBusy)) && (v.Skip? ==> !Eligible(b, m, includeBusy))
  {
  }

  datatype Answer = Listed(list: seq<Candidate>) | AttributeError

  /** Answers if and only if no v2 model is ready, unblocked and idle (or busy ones count); the
      answer is then the ranking. */
  method Candidates(book: BookObject.Book, heat: map<ModelId, real>, includeBusy: bool) returns (answer: Answer)
    requires book.Valid()
    ensures answer.AttributeError? <==> AnyTrips(book.State(), includeBusy)
    ensures answer.Listed? ==> IsRanking(book.State(), heat, includeBusy, answer.list)
  {
    var cs := [];
    ghost var b := book.State();
    hide Judge, Trips, Eligible, Ranked, IsRanking, CandidateFor, AnyTrips, PolicyOk, Distinct, Ordered;
    NoneRanked(b, heat, includeBusy, book.order);
    for i := 0 to |book.order|
      invariant Ranked(b, heat, includeBusy, book.order, i, cs)
    {
      var m := book.order[i];
      var verdict := Judge(book.runtime[m], book.policy.ledger[m], includeBusy);
      Judged(b, m, includeBusy);
      if verdict.Raise? {
        OneTrips(b, m, includeBusy);
        return AttributeError;
      }
      if verdict.Take? {
        ghost var was := cs;
        RankedNext(b, heat, includeBusy, book.order, i, was);
        var c := CandidateFor(book.policy, heat, m);
        cs := InsertInOrder(cs, c);
        RankedWith(b, heat, includeBusy, book.order, i, was, cs);
      } else {
        RankedWithout(b, heat, includeBusy, book.order, i, cs);
      }
    }
    RankedAll(b, heat, includeBusy, book.order, cs);
    answer := Listed(cs);
  }

  method Choose(book: BookObject.Book, needed: int, maxEvictions: nat, heat: map<ModelId, real>, includeBusy: bool)
    returns (answer: Answer)
    requires book.Valid() && maxEvictions >= 1
    ensures answer.AttributeError? <==> needed > 0 && AnyTrips(book.State(), includeBusy)
    ensures needed <= 0 ==> answer == Listed([])
    ensures needed > 0 && answer.Listed? ==>
              exists ranking ::
                    IsRanking(book.State(), heat, includeBusy, ranking)
                        && IsChoice(ranking, needed, maxEvictions, answer.list)
  {
    if needed <= 0 {
      return Listed([]);
    }
    answer := Candidates(book, heat, includeBusy);
    if answer.Listed? {
      var all := answer.list;
      var selected := ShortestPrefix(all, needed, maxEvictions);
      answer := Listed(selected);
      assert IsRanking(book.State(), heat, includeBusy, all);
    }
  }

  /** The loop of `choose`, over a ranking that is already computed. */
  method ShortestPrefix(all: seq<Candidate>, needed: int, maxEvictions: nat) returns (selected: seq<Candidate>)
    requires maxEvictions >= 1
    ensures IsChoice(all, needed, maxEvictions, selected)
  {
    selected := [];
    if needed <= 0 {
      return;
    }
    var released := 0;
    for i := 0 to |all|
      invariant selected == all[..i] && i < maxEvictions
      invariant released == Released(selected)
      invariant forall k :: 0 <= k <= i ==> Released(all[..k]) < needed
    {
      assert all[..i + 1] == all[..i] + [all[i]] && all[..i + 1][..i] == all[..i];
      selected := selected + [all[i]];
      released := released + all[i].reserved;
      if released >= needed {
        return;
      }
      if |selected| >= maxEvictions {
        return [];
      }
    }
    selected := [];
  }

  // ---- eviction makes room ---------------------------------------------------------------

  /** `_load_deficit`. */
  ghost function LoadDeficit(b: BookState, m: ModelId, s: MemorySample): (bytes: int)
    requires m in b.policy.ledger
  {
    var required := b.policy.ledger[m].reserved;
    var memory := b.policy.freeFloor + required - s.available;
    var budget := Committed(b) + required - b.policy.budget;
    if memory <= 0 && budget <= 0 then 0 else if memory >= budget then memory else budget
  }

  /** What the deficit measures: the least number of bytes that, if they became free and left the ledger,
      would pass both the memory test and the budget test of a load; nothing exactly if both pass as it
      is. */
  lemma DeficitIsLeast(b: BookState, m: ModelId, s: MemorySample, bytes: nat)
    requires m in b.policy.ledger
    ensures LoadDeficit(b, m, s) >= 0
    ensures bytes >= LoadDeficit(b, m, s) <==>
              && s.available + bytes - b.policy.ledger[m].reserved >= b.policy.freeFloor
              && Committed(b) - bytes + b.policy.ledger[m].reserved <= b.policy.budget
  {
    hide Committed;
  }

  function Victims(chosen: seq<Candidate>): (ms: set<ModelId>) {
    set c | c in chosen :: c.modelId
  }

  /** What the candidates promise to release is what the book has reserved for them. */
  lemma {:induction false} ReleasedIsReserved(w: map<ModelId, nat>, chosen: seq<Candidate>)
    requires forall i, j :: 0 <= i < j < |chosen| ==> chosen[i].modelId != chosen[j].modelId
    requires forall i :: 0 <= i < |chosen| ==> chosen[i].modelId in w && w[chosen[i].modelId] == chosen[i].reserved
    ensures Sum(map m | m in w && m in Victims(chosen) :: w[m]) == Released(chosen)
  {
    var inside := map m | m in w && m in Victims(chosen) :: w[m];
    if chosen == [] {
      assert inside == map[];
    } else {
      var last, front := chosen[|chosen| - 1], chosen[..|chosen| - 1];
      var rest := map m | m in w && m in Victims(front) :: w[m];
      ReleasedIsReserved(w, front);
      VictimsGrow(chosen);
      assert last.modelId !in Victims(front);
      hide Victims;
      SumSplit(inside, last.modelId);
      assert inside - {last.modelId} == rest;
    }
  }

  lemma ChosenAreReserved(b: BookState, heat: map<ModelId, real>, includeBusy: bool, ranking: seq<Candidate>,
                          chosen: seq<Candidate>)
    requires Inv(b) && IsRanking(b, heat, includeBusy, ranking) && chosen <= ranking
    ensures Sum(map m | m in Reservations(b) && m in Victims(chosen) :: Reservations(b)[m]) == Released(chosen)
  {
    forall i | 0 <= i < |chosen|
      ensures chosen[i].modelId in Reservations(b) && Reservations(b)[chosen[i].modelId] == chosen[i].reserved
      ensures chosen[i] == CandidateFor(b.policy, heat, chosen[i].modelId)
    {
      assert chosen[i] in ranking;
      var m := chosen[i].modelId;
      assert RuntimeInv(b.policy.ledger[m], m, b.runtime[m], b.recovering);
    }
    forall i, j | 0 <= i < j < |chosen|
      ensures chosen[i].modelId != chosen[j].modelId
    {
      assert Before(ranking[i], ranking[j]);
    }
    hide Inv, IsRanking, CandidateFor, Reservations;
    ReleasedIsReserved(Reservations(b), chosen);
  }

  lemma VictimsGrow(chosen: seq<Candidate>)
    requires chosen != []
    ensures Victims(chosen) == Victims(chosen[..|chosen| - 1]) + {chosen[|chosen| - 1].modelId}
  {
    var front, last := chosen[..|chosen| - 1], chosen[|chosen| - 1];
    assert chosen == front + [last];
  }

  ghost predicate LoadAccepted(w: World, c: Call) {
    c.Load? && WellFormed(c) && Apply(w.book, c).Ok?
  }

  /** Without a load in between, no reservation ever grows. */
  lemma {:induction false} ReservationsOnlyFall(ws: seq<World>, cs: seq<Call>, i: nat, j: nat, m: ModelId)
    requires IsRun(ws, cs) && WorldInv(ws[0]) && i <= j < |ws| && m in ws[i].book.runtime
    requires forall k :: i <= k < j ==> !LoadAccepted(ws[k], cs[k])
    ensures ws[j].book.policy == ws[i].book.policy
    ensures ws[j].book.runtime.Keys == ws[i].book.runtime.Keys
    ensures ws[j].book.runtime[m].reservation <= ws[i].book.runtime[m].reservation
    decreases j
  {
    hide Step, Next, After, Inv;
    if i < j {
      ReservationsOnlyFall(ws, cs, i, j - 1, m);
      RunKeepsWorld(ws, cs, j - 1);
      StepOf(ws[j - 1], cs[j - 1], ws[j]);
      ReservationMoves(ws[j - 1].book, cs[j - 1], m);
    }
  }

  /** Eviction makes room: take any run from boot in which `choose` answered the load deficit of
      `target` with a non-empty list at moment `i`, no load was accepted since, and every chosen
      victim is proven stopped at moment `j`. Then both the budget test and the physical gate of
      `can_load` admit the target. */
  lemma EvictionMakesRoom(ws: seq<World>, cs: seq<Call>, i: nat, j: nat, target: ModelId, sample: MemorySample,
                          heat: map<ModelId, real>, includeBusy: bool,
                          ranking: seq<Candidate>, maxEvictions: nat, chosen: seq<Candidate>)
    requires IsRun(ws, cs) && WorldInv(ws[0]) && MeasuredOnly(ws[0].book) && i <= j < |ws|
    requires target in ws[i].book.policy.ledger
    requires !AnyTrips(ws[i].book, includeBusy) && IsRanking(ws[i].book, heat, includeBusy, ranking)
    requires IsChoice(ranking, LoadDeficit(ws[i].book, target, sample), maxEvictions, chosen) && chosen != []
    requires forall k :: i <= k < j ==> !LoadAccepted(ws[k], cs[k])
    requires forall m :: m in Victims(chosen) && m in ws[j].book.runtime ==> ws[j].book.runtime[m].state.Unloaded?
    ensures target in ws[j].book.policy.ledger && BudgetAdmits(ws[j].book, target)
    ensures PhysicalAdmissible(ws[j].book, target)
  {
    var b, b' := ws[i].book, ws[j].book;
    RunKeepsWorld(ws, cs, i);
    RunKeepsWorld(ws, cs, j);
    RunKeepsMeasured(ws, cs, i);
    ChoiceMeansUnmeasured(b, heat, includeBusy, ranking, chosen);
    hide Step, Inv, IsRanking, Committed, Released, Victims, MeasuredOnly, AnyTrips, PhysicalEnforced;
    forall m | m in b.runtime
      ensures b'.policy == b.policy && b'.runtime.Keys == b.runtime.Keys
      ensures b'.runtime[m].reservation <= b.runtime[m].reservation
    {
      ReservationsOnlyFall(ws, cs, i, j, m);
    }
    IsRegistered(b, target);
    ChosenAreReserved(b, heat, includeBusy, ranking, chosen);
    StoppedVictimsLeaveRoom(b, b', Victims(chosen));
  }

  lemma IsRegistered(b: BookState, m: ModelId)
    requires Inv(b) && m in b.policy.ledger
    ensures m in b.runtime
  {
  }

  lemma StoppedVictimsLeaveRoom(b: BookState, b': BookState, victims: set<ModelId>)
    requires Inv(b) && Inv(b') && b'.runtime.Keys == b.runtime.Keys
    requires forall m :: m in b.runtime ==> b'.runtime[m].reservation <= b.runtime[m].reservation
    requires forall m :: m in victims && m in b'.runtime ==> b'.runtime[m].state.Unloaded?
    ensures Committed(b') + Sum(map m | m in Reservations(b) && m in victims :: Reservations(b)[m]) <= Committed(b)
  {
    var w, w' := Reservations(b), Reservations(b');
    forall m | m in w' && m in victims
      ensures w'[m] == 0
    {
      assert RuntimeInv(b'.policy.ledger[m], m, b'.runtime[m], b'.recovering);
    }
    SumPartition(w, victims);
    SumPartition(w', victims);
    var inside := map m | m in w' && m in victims :: w'[m];
    ZeroSum(inside);
    SumMono(w' - victims, w - victims);
  }

  // ---- what a stop batch does to the physical gate -----------------------------------------

  /** Batches named by their caller (an unload, the preparation of a session) exist in gated books
      too. When exactly the named models are stopped, the gate admits the target if and only if the
      figures of the models that stay, plus the target's own, fit the budget: a condition on the
      book before the stop. */
  lemma PhysicalGateAfterEviction(b: BookState, b': BookState, victims: set<ModelId>, target: ModelId)
    requires b'.policy == b.policy && b'.runtime.Keys == b.runtime.Keys
    requires forall m :: m in b.runtime ==>
               b'.runtime[m].reservation == if m in victims then 0 else b.runtime[m].reservation
    requires target in b.policy.ledger
    ensures PhysicalAdmissible(b', target) <==>
              (PhysicalEnforced(b.policy) ==>
                 && b.policy.ledger[target].physical.Some?
                 && Sum(PhysicalTable(b) - victims - {target})
                    + b.policy.ledger[target].physical.value <= b.policy.budget)
  {
    hide PhysicalEnforced;
    var kept, table := PhysicalTable(b) - victims, PhysicalTable(b');
    assert table.Keys == kept.Keys;
    assert table == kept;
  }

  // ---- a measured deployment never evicts for room ----------------------------------------

  /** With the physical gate on, a model without a figure is not loaded and holds no lease. */
  ghost predicate MeasuredOnly(b: BookState) {
    PhysicalEnforced(b.policy) ==> forall m :: m in b.runtime ==> m in b.policy.ledger && MeasuredAt(b, m)
  }

  predicate MeasuredAt(b: BookState, m: ModelId)
    requires m in b.runtime && m in b.policy.ledger
  {
    b.policy.ledger[m].physical.None? ==>
      && b.runtime[m].leases == map[]
      && (b.runtime[m].state.Unknown? || b.runtime[m].state.Unloaded? || (b.recovering && b.runtime[m].state.Error?))
  }

  lemma BootedIsMeasured(p: Policy)
    ensures MeasuredOnly(Booted(p))
  {
  }

  lemma CallKeepsMeasuredAt(b: BookState, c: Call, m: ModelId)
    requires Inv(b) && WellFormed(c) && PhysicalEnforced(b.policy) && m in b.runtime && MeasuredAt(b, m)
    ensures m in After(b, c).runtime && After(b, c).policy == b.policy && MeasuredAt(After(b, c), m)
  {
    assert RuntimeInv(b.policy.ledger[m], m, b.runtime[m], b.recovering);
    hide Inv, PolicyOk;
    if b.policy.ledger[m].physical.Some? {
      hide RuntimeInv, MeasuredAt;
      PolicyStays(b, c);
      assert MeasuredAt(After(b, c), m) by { MeasuredFigure(After(b, c), m); }
    } else if c.Evict? || c.Cleanup? || c.Freeze? {
      BatchSkipsUnloaded(b, c, m);
    } else if IsTokenCall(c) {
      TokensSkipOthers(b, c, m);
      PolicyStays(b, c);
      TokenFrame(b, c);
    } else {
      OtherKeepsMeasuredAt(b, c, m);
    }
  }

  lemma MeasuredFigure(b: BookState, m: ModelId)
    requires m in b.runtime && m in b.policy.ledger && b.policy.ledger[m].physical.Some?
    ensures MeasuredAt(b, m)
  {
  }

  lemma PolicyStays(b: BookState, c: Call)
    requires WellFormed(c)
    ensures After(b, c).policy == b.policy && After(b, c).runtime.Keys == b.runtime.Keys
  {
    hide Vet, EvictableNow, CleanableNow, FreezableNow, Distinct, CanLoad, AnyLease, OwnsLease, Held;
  }

  lemma TokenFrame(b: BookState, c: Call)
    requires IsTokenCall(c)
    ensures After(b, c).recovering == b.recovering
  {
  }

  lemma BatchSkipsUnloaded(b: BookState, c: Call, m: ModelId)
    requires WellFormed(c) && (c.Evict? || c.Cleanup? || c.Freeze?) && m in b.runtime && m in b.policy.ledger
    requires MeasuredAt(b, m) && b.policy.ledger[m].physical.None?
    ensures m in After(b, c).runtime && After(b, c).policy == b.policy && MeasuredAt(After(b, c), m)
  {
    var good := if c.Evict? then EvictableNow(b, c.automatic) else if c.Cleanup? then CleanableNow(b)
        else FreezableNow(b);
    VetMeaning(b, c.ms, good);
  }

  lemma OtherKeepsMeasuredAt(b: BookState, c: Call, m: ModelId)
    requires !IsTokenCall(c) && !c.Evict? && !c.Cleanup? && !c.Freeze? && PhysicalEnforced(b.policy)
    requires m in b.runtime && m in b.policy.ledger && MeasuredAt(b, m) && b.policy.ledger[m].physical.None?
    ensures m in After(b, c).runtime && After(b, c).policy == b.policy && MeasuredAt(After(b, c), m)
  {
    hide PhysicalEnforced, BudgetAdmits, SampleAfterStop, SampleValid, OwnsLease, Registered, AnyLease;
  }

  lemma {:induction false} RunKeepsMeasured(ws: seq<World>, cs: seq<Call>, i: nat)
    requires IsRun(ws, cs) && WorldInv(ws[0]) && MeasuredOnly(ws[0].book) && i < |ws|
    ensures MeasuredOnly(ws[i].book) && ws[i].book.policy == ws[0].book.policy
  {
    hide Step, After, Inv, PhysicalEnforced;
    if i > 0 {
      RunKeepsMeasured(ws, cs, i - 1);
      RunKeepsWorld(ws, cs, i - 1);
      StepOf(ws[i - 1], cs[i - 1], ws[i]);
      CallKeepsMeasured(ws[i - 1].book, cs[i - 1]);
    }
  }

  lemma CallKeepsMeasured(b: BookState, c: Call)
    requires Inv(b) && WellFormed(c) && MeasuredOnly(b)
    ensures MeasuredOnly(After(b, c)) && After(b, c).policy == b.policy
  {
    PolicyStays(b, c);
    hide After, Inv, PhysicalEnforced, MeasuredAt;
    if PhysicalEnforced(b.policy) {
      forall m | m in After(b, c).runtime ensures m in b.policy.ledger && MeasuredAt(After(b, c), m) {
        CallKeepsMeasuredAt(b, c, m);
      }
    }
  }

  /** In no reachable book with the physical gate on does `choose` name a victim: a loaded model has
      a figure, so it is a v2 model, and a v2 model that passes the runtime tests makes the call
      raise. Where it does name one, the gate is off. */
  lemma ChoiceMeansUnmeasured(b: BookState, heat: map<ModelId, real>, includeBusy: bool, ranking: seq<Candidate>,
                              chosen: seq<Candidate>)
    requires PolicyOk(b.policy) && MeasuredOnly(b) && !AnyTrips(b, includeBusy)
    requires IsRanking(b, heat, includeBusy, ranking) && chosen <= ranking && chosen != []
    ensures !PhysicalEnforced(b.policy)
  {
    var m := chosen[0].modelId;
    assert ranking[0] in ranking && Eligible(b, m, includeBusy);
    assert !Trips(b, m, includeBusy);
    assert PhysicalEnforced(b.policy) ==> MeasuredAt(b, m);
  }

  function OneModel(m: ModelId, spec: LedgerSpec, budget: nat, floor: nat, age: Time): (p: Policy) {
    Policy(map[m := spec], budget, floor, age)
  }

  /** A single model that fits its budget is loaded by three calls from boot. */
  lemma LoadsFromBoot(m: ModelId, spec: LedgerSpec, budget: nat, floor: nat, age: Time, now: Time, uuid: Uuid)
    returns (ws: seq<World>, cs: seq<Call>)
    requires PolicyOk(OneModel(m, spec, budget, floor, age))
    requires spec.reserved <= budget && (spec.physical.Some? ==> spec.physical.value <= budget)
    ensures IsRun(ws, cs) && ws[0] == World(Booted(OneModel(m, spec, budget, floor, age)), {}, {}) && |cs| == 3
    ensures |ws| == 4 && cs[0].Bootstrap? && cs[1].Load? && cs[2].LoadDone? && ws[3].drawn == {uuid}
    ensures IdleReady(ws[3].book, m, spec, budget, floor, age)
  {
    hide *;
    var p := OneModel(m, spec, budget, floor, age);
    var sample := MemorySample(floor + spec.reserved, floor + spec.reserved, now);
    var w0 := World(Booted(p), {}, {});
    var c0, c1, c2 := Bootstrap(m), Load(m, sample, now, uuid), LoadDone(Operation(uuid, m, 1, 0), now);
    OneStep(w0, c0);
    var w1 := Next(w0, c0);
    OneStep(w1, c1);
    var w2 := Next(w1, c1);
    OneStep(w2, c2);
    var w3 := Next(w2, c2);
    ws, cs := [w0, w1, w2, w3], [c0, c1, c2];
    FirstBootstrap(m, spec, budget, floor, age);
    FirstLoad(m, spec, budget, floor, age, sample, now, uuid);
    FirstLoaded(m, spec, budget, floor, age, now, uuid);
    ThreeCalls(ws, cs);
  }

  lemma OneStep(w: World, c: Call)
    requires c.Bootstrap? || (c.Load? && w.drawn == {}) || c.LoadDone?
    ensures WellFormed(c) && Step(w, c, Next(w, c)) && Next(w, c).book == After(w.book, c)
    ensures Next(w, c).drawn == w.drawn + if c.Load? then {c.uuid} else {}
  {
    hide After, Issues;
  }

  lemma ThreeCalls(ws: seq<World>, cs: seq<Call>)
    requires |ws| == 4 && |cs| == 3 && Step(ws[0], cs[0], ws[1]) && Step(ws[1], cs[1], ws[2])
    requires Step(ws[2], cs[2], ws[3])
    ensures IsRun(ws, cs)
  {
    hide Step;
  }

  /** The only model of this book is ready, open and unleased. */
  predicate IdleReady(b: BookState, m: ModelId, spec: LedgerSpec, budget: nat, floor: nat, age: Time) {
    && b.policy == OneModel(m, spec, budget, floor, age) && b.runtime.Keys == {m} && !b.recovering
    && b.runtime[m].state.Ready? && b.runtime[m].leases == map[] && !b.runtime[m].admissionBlocked
  }

  /** The failing family: load any single v2 model that fits its budget, and from then on asking for
      candidates raises, however much is needed. */
  lemma LoadedV2Trips(m: ModelId, spec: LedgerSpec, budget: nat, floor: nat, age: Time, now: Time, uuid: Uuid)
    returns (ws: seq<World>, cs: seq<Call>)
    requires PolicyOk(OneModel(m, spec, budget, floor, age)) && spec.registration.RegisteredV2?
    requires spec.reserved <= budget && (spec.physical.Some? ==> spec.physical.value <= budget)
    ensures IsRun(ws, cs) && ws[0] == World(Booted(OneModel(m, spec, budget, floor, age)), {}, {}) && |cs| == 3
    ensures AnyTrips(ws[3].book, false) && AnyTrips(ws[3].book, true)
  {
    ws, cs := LoadsFromBoot(m, spec, budget, floor, age, now, uuid);
    hide IsRun;
    assert Trips(ws[3].book, m, false) && Trips(ws[3].book, m, true);
  }

  function StoppedBook(p: Policy, m: ModelId): (b: BookState) {
    Set(Booted(p), m, Runtime(Unloaded, 0, None, map[], map[], false, 0, None, None))
  }

  function LoadingBook(p: Policy, m: ModelId, uuid: Uuid): (b: BookState)
    requires m in p.ledger
  {
    var b := StoppedBook(p, m);
    Set(b, m, LoadingRuntime(b.runtime[m], p.ledger[m].reserved, uuid))
  }

  lemma FirstBootstrap(m: ModelId, spec: LedgerSpec, budget: nat, floor: nat, age: Time)
    ensures var p := OneModel(m, spec, budget, floor, age);
            m in p.ledger && After(Booted(p), Bootstrap(m)) == StoppedBook(p, m)
  {
  }

  lemma FirstLoad(m: ModelId, spec: LedgerSpec, budget: nat, floor: nat, age: Time, sample: MemorySample, now: Time,
                  uuid: Uuid)
    requires PolicyOk(OneModel(m, spec, budget, floor, age))
    requires sample == MemorySample(floor + spec.reserved, floor + spec.reserved, now)
    requires spec.reserved <= budget && (spec.physical.Some? ==> spec.physical.value <= budget)
    ensures var p := OneModel(m, spec, budget, floor, age);
            m in p.ledger && After(StoppedBook(p, m), Load(m, sample, now, uuid)) == LoadingBook(p, m, uuid)
  {
    var p := OneModel(m, spec, budget, floor, age);
    var b := StoppedBook(p, m);
    assert b.runtime.Keys == {m};
    ZeroSum(Reservations(b));
    assert PhysicalTable(b) - {m} == map[];
    assert CanLoad(b, m, sample, now);
  }

  lemma FirstLoaded(m: ModelId, spec: LedgerSpec, budget: nat, floor: nat, age: Time, now: Time, uuid: Uuid)
    ensures var p := OneModel(m, spec, budget, floor, age);
            && m in p.ledger
            && IdleReady(After(LoadingBook(p, m, uuid), LoadDone(Operation(uuid, m, 1, 0), now)), m, spec, budget,
                         floor, age)
  {
  }
}
