/**
 `GridSpec::parse` (`crates/config/src/grid/mod.rs`) from the split terms on.
 The term regex, the integer parser and the duration parser are already applied:
 a term carries what they found, `None` where one of them refused.
 */
module GridParse {
  import opened Wrappers
  import opened Retention

  const U32_LIMIT := 0x1_0000_0000

  datatype Modifier =
    | Absent
    | Unsupported
    | All
    | Count(n: Option<nat>)

  datatype Term =
    | Blank
    | Malformed
    | Term(count: Option<nat>, length: Option<nat>, modifier: Modifier)

  datatype TermFault =
    | BadShape
    | BadCount
    | ZeroCount
    | BadDuration
    | ZeroDuration
    | BadModifier
    | BadKeep
    | ZeroKeep

  datatype ParseError =
    | Empty
    | InTerm(index: nat, fault: TermFault)
    | NonMonotonic(prev: nat, next: nat)

  function AsU32(n: Option<nat>): Option<nat> {
    if n.Some? && n.value < U32_LIMIT then n else None
  }

  function JudgeModifier(m: Modifier): Result<KeepCount, TermFault> {
    match m
    case Absent => Ok(Exactly(1))
    case Unsupported => Err(BadModifier)
    case All => Ok(KeepAll)
    case Count(n) =>
      if AsU32(n).None? then Err(BadKeep) else if n.value == 0 then Err(ZeroKeep) else Ok(Exactly(n.value))
  }

  /** The repeat count and interval of one term, or its first fault. */
  function JudgeTerm(t: Term): Result<(nat, RetentionInterval), TermFault> {
    if !t.Term? then Err(BadShape)
    else if AsU32(t.count).None? then Err(BadCount)
    else if t.count.value == 0 then Err(ZeroCount)
    else if t.length.None? then Err(BadDuration)
    else if t.length.value == 0 then Err(ZeroDuration)
    else
      match JudgeModifier(t.modifier)
      case Err(fault) => Err(fault)
      case Ok(keep) => Ok((t.count.value, RetentionInterval(t.length.value, keep)))
  }

  /** Present and within 32 bits. */
  predicate Fits(n: Option<nat>) {
    n.Some? && n.value < 4294967296
  }

  /** A term gives `n` times `iv` exactly when it is well formed, both numbers are
      positive, and `iv` keeps what the modifier says: one without a modifier. */
  lemma TermIsGoodIff(t: Term, n: nat, iv: RetentionInterval)
    ensures JudgeTerm(t) == Ok((n, iv)) <==>
            && t.Term? && t.count == Some(n) && Fits(t.count) && n > 0
            && t.length == Some(iv.length) && iv.length > 0
            && match t.modifier
               case Absent => iv.keepCount == Exactly(1)
               case All => iv.keepCount == KeepAll
               case Count(k) => Fits(k) && k.value > 0 && iv.keepCount == Exactly(k.value)
               case Unsupported => false
  {
  }

  /** Otherwise the first thing wrong with it is reported, in this order. */
  lemma TermFaultIff(t: Term, fault: TermFault)
    ensures JudgeTerm(t) == Err(fault) <==>
            if !t.Term? then fault == BadShape
            else if !Fits(t.count) then fault == BadCount
            else if t.count == Some(0) then fault == ZeroCount
            else if t.length == None then fault == BadDuration
            else if t.length == Some(0) then fault == ZeroDuration
            else match t.modifier
              case Unsupported => fault == BadModifier
              case Count(k) => if !Fits(k) then fault == BadKeep else k == Some(0) && fault == ZeroKeep
              case _ => false
  {
  }

  function Repeat(iv: RetentionInterval, n: nat): seq<RetentionInterval> {
    seq(n, _ => iv)
  }

  /** Every good term's interval, as often as its count says, in order. */
  function Expand(terms: seq<Term>): GridSpec {
    if terms == [] then []
    else
      Expand(terms[..|terms| - 1]) +
      match JudgeTerm(terms[|terms| - 1])
      case Err(_) => []
      case Ok(p) => Repeat(p.1, p.0)
  }

  predicate AllBlank(terms: seq<Term>) {
    forall t | t in terms :: t.Blank?
  }

  predicate FirstFault(terms: seq<Term>, i: nat, fault: TermFault) {
    && i < |terms| && JudgeTerm(terms[i]) == Err(fault)
    && forall j | 0 <= j < i :: JudgeTerm(terms[j]).Ok?
  }

  predicate AllGood(terms: seq<Term>) {
    forall t | t in terms :: JudgeTerm(t).Ok?
  }

  /** Interval `i` is shorter than its predecessor although something before it
      is not `keep=all`. */
  predicate Drops(grid: GridSpec, i: nat) {
    && 0 < i < |grid| && grid[i].length < grid[i - 1].length
    && exists k :: 0 <= k < i && grid[k].keepCount.Exactly?
  }

  method ExpandTerms(terms: seq<Term>) returns (r: Result<GridSpec, ParseError>)
    ensures r.Ok? <==> AllGood(terms)
    ensures r.Ok? ==> r.value == Expand(terms)
    ensures r.Err? ==> r.error.InTerm? && FirstFault(terms, r.error.index, r.error.fault)
  {
    var intervals: GridSpec := [];
    for n := 0 to |terms|
      invariant forall j | 0 <= j < n :: JudgeTerm(terms[j]).Ok?
      invariant intervals == Expand(terms[..n])
    {
      assert terms[..n + 1][..n] == terms[..n];
      var judged := JudgeTerm(terms[n]);
      if judged.Err? {
        return Err(InTerm(n, judged.error));
      }
      ghost var before := intervals;
      var (count, iv) := judged.value;
      for c := 0 to count
        invariant intervals == before + Repeat(iv, c)
      {
        assert Repeat(iv, c + 1) == Repeat(iv, c) + [iv];
        intervals := intervals + [iv];
      }
    }
    assert terms[..|terms|] == terms;
    return Ok(intervals);
  }

  method CheckOrder(intervals: GridSpec) returns (r: Result<(), ParseError>)
    ensures r.Ok? <==> forall i :: !Drops(intervals, i)
    ensures r.Err? ==>
              exists i: nat :: Drops(intervals, i) && (forall j: nat | j < i :: !Drops(intervals, j))
                               && r.error == NonMonotonic(intervals[i - 1].length, intervals[i].length)
  {
    var last := 0;
    for i := 0 to |intervals|
      invariant last == if i > 0 then intervals[i - 1].length else 0
      invariant forall j: nat | j < i :: !Drops(intervals, j)
    {
      if intervals[i].length < last {
        var allPrevKeepAll := forall p | p in intervals[..i] :: p.keepCount.KeepAll?;
        if !allPrevKeepAll {
          assert Drops(intervals, i);
          return Err(NonMonotonic(last, intervals[i].length));
        }
        assert forall k | 0 <= k < i :: intervals[k] in intervals[..i];
      }
      last := intervals[i].length;
    }
    return Ok(());
  }

  /** The parser's verdict is exact: the first fault in term order, else the
      first drop, else the expansion of all terms. */
  method Parse(terms: seq<Term>) returns (r: Result<GridSpec, ParseError>)
    ensures r == Err(Empty) <==> AllBlank(terms)
    ensures !AllBlank(terms) ==> forall i, fault :: r == Err(InTerm(i, fault)) <==> FirstFault(terms, i, fault)
    ensures r.Ok? <==> !AllBlank(terms) && AllGood(terms) && forall i :: !Drops(Expand(terms), i)
    ensures r.Ok? ==> r.value == Expand(terms)
    ensures r.Err? && r.error.NonMonotonic? ==>
              AllGood(terms)
              && exists i: nat :: Drops(Expand(terms), i) && (forall j: nat | j < i :: !Drops(Expand(terms), j))
                                  && r.error == NonMonotonic(Expand(terms)[i - 1].length, Expand(terms)[i].length)
  {
    if forall t | t in terms :: t.Blank? {
      return Err(Empty);
    }
    var expanded := ExpandTerms(terms);
    if expanded.Err? {
      return Err(expanded.error);
    }
    var order := CheckOrder(expanded.value);
    return if order.Err? then Err(order.error) else expanded;
  }

  lemma {:induction false} ExpandedIntervals(terms: seq<Term>)
    requires AllGood(terms)
    ensures forall iv | iv in Expand(terms) :: iv.length > 0 && (iv.keepCount.Exactly? ==> 0 < iv.keepCount.n < U32_LIMIT)
    ensures terms != [] ==> Expand(terms) != []
  {
    if terms != [] {
      var rest := terms[..|terms| - 1];
      assert forall t | t in rest :: t in terms;
      ExpandedIntervals(rest);
      assert JudgeTerm(terms[|terms| - 1]).Ok?;
    }
  }

  /** Whatever the parser accepts is a grid: not empty, no zero length and no
      zero count. So its second emptiness check never fires. */
  lemma AcceptedGridsAreValid(terms: seq<Term>)
    requires !AllBlank(terms) && AllGood(terms)
    ensures ValidGrid(Expand(terms))
  {
    ExpandedIntervals(terms);
  }

  /** What the neighbour-by-neighbour check amounts to: from the first counted
      interval on, lengths never decrease at any distance; before it they are
      free. */
  ghost predicate SettlesAfterKeepAll(grid: GridSpec) {
    forall k, a, b | 0 <= k <= a <= b < |grid| && grid[k].keepCount.Exactly? :: grid[a].length <= grid[b].length
  }

  lemma {:induction false} NoDropReaches(grid: GridSpec, k: nat, a: nat, b: nat)
    requires k <= a <= b < |grid| && grid[k].keepCount.Exactly? && forall i :: !Drops(grid, i)
    ensures grid[a].length <= grid[b].length
  {
    if a < b {
      NoDropReaches(grid, k, a, b - 1);
      assert !Drops(grid, b);
    }
  }

  lemma NoDropIffSettles(grid: GridSpec)
    ensures (forall i :: !Drops(grid, i)) <==> SettlesAfterKeepAll(grid)
  {
    if forall i :: !Drops(grid, i) {
      forall k, a, b | 0 <= k <= a <= b < |grid| && grid[k].keepCount.Exactly?
        ensures grid[a].length <= grid[b].length
      {
        NoDropReaches(grid, k, a, b);
      }
    }
  }
}
